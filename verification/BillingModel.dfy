/**
 The billing rows and what each writer does to them: Stripe webhook events, the manual tier
 override, the onboarding trial and its expiry, the checkout upsert and trial reservation, and the
 dunning sweep. `BillingDatabase` runs the same writers statement by statement.
 */
module BillingModel {
  import opened Wrappers

  type Id = string
  /** Milliseconds. */
  type Time = int

  const DAY := 86_400_000
  const GRACE := 3 * DAY

  datatype Plan = Free | Essential | Pro | Enterprise
  datatype Status = Trialing | Active | PastDue | Cancelled | NoPlan
  datatype Provider = Stripe | Manual

  /** A `tenant_billing_accounts` row is unique per tenant and provider, so the pair names it. */
  datatype Key = Key(tenant: Id, provider: Provider)

  datatype Account = Account(
    customerId: Option<Id>, subscriptionId: Option<Id>, status: Status, plan: Plan, primary: bool,
    periodEnd: Option<Time>, cancelAtPeriodEnd: bool, pendingPlan: Option<Plan>, pendingAt: Option<Time>,
    trialEnd: Option<Time>, billingEmail: Option<string>, clock: Option<Time>, scheduleId: Option<Id>)

  type Accounts = map<Key, Account>

  datatype Reservation = Reservation(session: Option<Id>, subscription: Option<Id>)

  datatype Store = Store(tiers: map<Id, Plan>, accounts: Accounts, reservations: map<Id, Reservation>,
                         topUps: map<Id, int>)

  /** None where the source throws, which rolls the whole transaction back. */
  datatype Result = Done(store: Store, outcome: Outcome) | Threw

  datatype Outcome =
    | AuditOnly | NoMatchingRow | InvoiceMismatch | DeletedStale | TenantCancelled | NoPayload | SubscriptionMismatch
    | UnknownPriceSkipped | PromotedPrimary | TierCascaded | PastDueGrace | PrimaryNoCascade | NonPrimaryUpdated
    | PastDueRecovered | InvoicePaidNoChange | MarkedPastDue | InvoiceFailedNoChange
    | CheckoutIgnored | CheckoutUnresolvedTenant | CheckoutNoRow | CheckoutBookkept
    | TopUpUnresolvedTenant | TopUpInvalid | TopUpCredited | ReservationKept | ReservationReleased

  // ---------------------------------------------------------------- constraints the database enforces

  /** The partial unique indexes on subscription and customer ids. */
  predicate UniqueIds(accounts: Accounts) {
    forall a, b :: a in accounts && b in accounts && a.provider == b.provider && a != b ==>
      && (accounts[a].subscriptionId.Some? ==> accounts[a].subscriptionId != accounts[b].subscriptionId)
      && (accounts[a].customerId.Some? ==> accounts[a].customerId != accounts[b].customerId)
  }

  /** The partial unique index on the primary row. */
  predicate UniquePrimary(accounts: Accounts) {
    forall a, b :: a in accounts && b in accounts && a.tenant == b.tenant && a != b ==>
      !(accounts[a].primary && accounts[b].primary)
  }

  /** Make `k` the tenant's one primary row. */
  function Crown(accounts: Accounts, k: Key): Accounts {
    map x | x in accounts ::
      if x == k then accounts[x].(primary := true)
      else if x.tenant == k.tenant then accounts[x].(primary := false)
      else accounts[x]
  }

  // ---------------------------------------------------------------- events

  /** The raw price id, as the plan catalog knows it. */
  datatype Price = NoPrice | Priced(plan: Plan) | UnknownPrice
  datatype Fetched = Fetched(id: Id, pendingPlan: Option<Plan>, pendingAt: Option<Time>)
  /** The raw schedule: cleared, a bare id (retrieved from Stripe; None when that call fails), or expanded. */
  datatype Schedule = Cleared | ById(fetched: Option<Fetched>) | Expanded(id: Option<Id>) | Unrecognised

  datatype Subscription = Subscription(
    subscriptionId: Option<Id>, status: Status, plan: Plan, periodEnd: Option<Time>, cancelAtPeriodEnd: bool,
    trialEnd: Option<Time>, pendingPlan: Option<Plan>, pendingAt: Option<Time>)

  datatype Refetch = StillThere | ResourceMissing | ApiError

  datatype Session =
    | FetchFailed
    | TopUp(tenant: Option<Id>, tokens: int)
    | OtherMode
    | SubscriptionMode(tenant: Option<Id>, customerId: Option<Id>, subscriptionId: Id)

  datatype Event =
    | SubscriptionUpsert(created: bool, customerId: Option<Id>, subscriptionId: Option<Id>,
                         payload: Option<Subscription>, terminal: bool, price: Price, schedule: Schedule)
    | SubscriptionDeleted(customerId: Option<Id>, subscriptionId: Option<Id>, deletedId: Option<Id>, refetch: Refetch)
    | InvoicePaid(customerId: Option<Id>, subscriptionId: Option<Id>)
    | InvoiceFailed(customerId: Option<Id>, subscriptionId: Option<Id>)
    | CheckoutCompleted(session: Option<Session>)
    | CheckoutExpired(sessionId: Option<Id>, tenant: Option<Id>)
    | LogOnly

  /** Events about a row found by subscription or customer id. */
  predicate RowEvent(e: Event) {
    e.SubscriptionUpsert? || e.SubscriptionDeleted? || e.InvoicePaid? || e.InvoiceFailed?
  }

  /** What `normalizeWebhookEvent` emits: a subscription event carries its one id everywhere. */
  predicate Normalized(e: Event) {
    && (e.SubscriptionUpsert? ==>
       e.payload.Some? && e.subscriptionId.Some? && e.payload.value.subscriptionId == e.subscriptionId)
    && (e.SubscriptionDeleted? ==> e.subscriptionId.Some? && e.deletedId == e.subscriptionId)
  }

  predicate HasSubscription(accounts: Accounts, k: Key, sub: Id) {
    k in accounts && k.provider == Stripe && accounts[k].subscriptionId == Some(sub)
  }

  predicate HasCustomer(accounts: Accounts, k: Key, customer: Id) {
    k in accounts && k.provider == Stripe && accounts[k].customerId == Some(customer)
  }

  ghost function FindSubscription(accounts: Accounts, sub: Option<Id>): (k: Option<Key>)
    ensures k.Some? ==> sub.Some? && HasSubscription(accounts, k.value, sub.value)
    ensures k.None? && sub.Some? ==> forall x :: !HasSubscription(accounts, x, sub.value)
  {
    if sub.Some? && exists x :: HasSubscription(accounts, x, sub.value) then
      var x :| HasSubscription(accounts, x, sub.value); Some(x)
    else None
  }

  ghost function FindCustomer(accounts: Accounts, customer: Option<Id>): (k: Option<Key>)
    ensures k.Some? ==> customer.Some? && HasCustomer(accounts, k.value, customer.value)
    ensures k.None? && customer.Some? ==> forall x :: !HasCustomer(accounts, x, customer.value)
  {
    if customer.Some? && exists x :: HasCustomer(accounts, x, customer.value) then
      var x :| HasCustomer(accounts, x, customer.value); Some(x)
    else None
  }

  /** When a row found by customer id may stand in for one found by subscription id. */
  predicate FallbackAllowed(e: Event, row: Account)
    requires RowEvent(e)
  {
    match e
    case SubscriptionUpsert(created, _, _, _, _, _, _) => created || row.subscriptionId.None?
    case SubscriptionDeleted(_, _, _, _) => row.subscriptionId.None?
    case _ => e.subscriptionId.None? || row.subscriptionId.None?
  }

  ghost function Resolve(accounts: Accounts, e: Event): (k: Option<Key>)
    requires RowEvent(e)
    ensures k.Some? ==> k.value in accounts && k.value.provider == Stripe
  {
    var bySub := FindSubscription(accounts, e.subscriptionId);
    var byCustomer := FindCustomer(accounts, e.customerId);
    if bySub.Some? then bySub
    else if byCustomer.Some? && FallbackAllowed(e, accounts[byCustomer.value]) then byCustomer
    else None
  }

  // ---------------------------------------------------------------- subscription created or updated

  predicate Granting(status: Status) {
    status == Trialing || status == Active
  }

  /** Statuses under which a primary row gives access. */
  predicate Live(status: Status) {
    Granting(status) || status == PastDue
  }

  function NewPlan(s: Subscription, row: Account, price: Price): Plan {
    if s.status == PastDue then row.plan
    else if s.status == NoPlan && price != NoPrice then (if price.Priced? then price.plan else Free)
    else if s.status == Cancelled || s.status == NoPlan then Free
    else s.plan
  }

  function WithSchedule(row: Account, s: Subscription, schedule: Schedule): Account {
    match schedule
    case Cleared => row.(pendingPlan := None, pendingAt := None, scheduleId := None)
    case ById(Some(f)) => row.(pendingPlan := f.pendingPlan, pendingAt := f.pendingAt, scheduleId := Some(f.id))
    case Expanded(id) => row.(pendingPlan := s.pendingPlan, pendingAt := s.pendingAt,
      scheduleId := if id.Some? then id else row.scheduleId)
    case _ => row
  }

  /** The row the event leaves behind, before any promotion. */
  function UpsertedRow(row: Account, s: Subscription, price: Price, schedule: Schedule, now: Time): Account {
    WithSchedule(row, s, schedule).(
      subscriptionId := if s.subscriptionId.Some? then s.subscriptionId else row.subscriptionId,
      status := s.status, plan := NewPlan(s, row, price), periodEnd := s.periodEnd,
      cancelAtPeriodEnd := s.cancelAtPeriodEnd, trialEnd := s.trialEnd,
      clock := if Granting(s.status) then None
               else if s.status == PastDue && row.primary && s.subscriptionId.Some? && row.clock.None? then Some(now)
               else row.clock)
  }

  function Claimed(reservations: map<Id, Reservation>, t: Id, sub: Option<Id>): map<Id, Reservation> {
    if sub.Some? && t in reservations && reservations[t].subscription.None?
    then reservations[t := reservations[t].(subscription := sub)] else reservations
  }

  /** Why the event is skipped, if it is. */
  function UpsertSkip(e: Event, row: Account): Option<Outcome>
    requires e.SubscriptionUpsert?
  {
    if e.payload.None? then Some(NoPayload)
    else if row.subscriptionId.Some? && e.payload.value.subscriptionId.Some?
      && row.subscriptionId != e.payload.value.subscriptionId
      then Some(SubscriptionMismatch)
    else if !e.terminal && e.price == UnknownPrice then Some(UnknownPriceSkipped)
    else None
  }

  function UpsertOutcome(status: Status, primary: bool): Outcome {
    if Granting(status) then (if primary then TierCascaded else PromotedPrimary)
    else if !primary then NonPrimaryUpdated
    else if status == PastDue then PastDueGrace
    else PrimaryNoCascade
  }

  function HandleUpsert(s: Store, e: Event, k: Key, now: Time): Result
    requires e.SubscriptionUpsert? && k in s.accounts
  {
    var row := s.accounts[k];
    if UpsertSkip(e, row).Some? then Done(s, UpsertSkip(e, row).value)
    else if e.schedule == ById(None) then Threw
    else
      var p := e.payload.value;
      var written := s.accounts[k := UpsertedRow(row, p, e.price, e.schedule, now)];
      if !UniqueIds(written) then Threw
      else Done(s.(accounts := if Granting(p.status) then Crown(written, k) else written,
                   tiers := if Granting(p.status) then s.tiers[k.tenant := NewPlan(p, row, e.price)] else s.tiers,
                   reservations := Claimed(s.reservations, k.tenant, p.subscriptionId)),
                UpsertOutcome(p.status, row.primary))
  }

  // ---------------------------------------------------------------- the other row events

  function Dropped(row: Account): Account {
    row.(status := Cancelled, plan := Free, pendingPlan := None, pendingAt := None, trialEnd := None, periodEnd := None,
         cancelAtPeriodEnd := false, subscriptionId := None, clock := None)
  }

  function Drop(s: Store, k: Key): Store
    requires k in s.accounts
  {
    s.(accounts := s.accounts[k := Dropped(s.accounts[k])],
       tiers := if s.accounts[k].primary then s.tiers[k.tenant := Free] else s.tiers)
  }

  function HandleDeleted(s: Store, e: Event, k: Key): Result
    requires e.SubscriptionDeleted? && k in s.accounts
  {
    var row := s.accounts[k];
    if e.deletedId.Some? && row.subscriptionId.Some? && row.subscriptionId != e.deletedId then Done(s, DeletedStale)
    else if e.deletedId.Some? && e.refetch == ApiError then Threw
    else Done(Drop(s, k), TenantCancelled)
  }

  function WithRow(s: Store, k: Key, row: Account): Store {
    s.(accounts := s.accounts[k := row])
  }

  predicate InvoiceMismatched(e: Event, row: Account)
    requires e.InvoicePaid? || e.InvoiceFailed?
  {
    e.subscriptionId.Some? && row.subscriptionId.Some? && e.subscriptionId != row.subscriptionId
  }

  function InvoiceOutcome(e: Event, row: Account): Outcome
    requires e.InvoicePaid? || e.InvoiceFailed?
  {
    if InvoiceMismatched(e, row) then InvoiceMismatch
    else if e.InvoicePaid?
      then (if row.status == PastDue && e.subscriptionId.Some? then PastDueRecovered else InvoicePaidNoChange)
    else if e.subscriptionId.Some? && Granting(row.status) then MarkedPastDue
    else InvoiceFailedNoChange
  }

  function InvoiceRow(e: Event, row: Account, now: Time): Account
    requires e.InvoicePaid? || e.InvoiceFailed?
  {
    match InvoiceOutcome(e, row)
    case PastDueRecovered => row.(status := Active, clock := None)
    case InvoicePaidNoChange => if e.subscriptionId.Some? then row.(clock := None) else row
    case MarkedPastDue => row.(status := PastDue, clock := if row.clock.None? then Some(now) else row.clock)
    case _ => row
  }

  function HandleInvoice(s: Store, e: Event, k: Key, now: Time): Result
    requires (e.InvoicePaid? || e.InvoiceFailed?) && k in s.accounts
  {
    Done(WithRow(s, k, InvoiceRow(e, s.accounts[k], now)), InvoiceOutcome(e, s.accounts[k]))
  }

  // ---------------------------------------------------------------- checkout sessions

  function HandleCheckout(s: Store, e: Event): Result
    requires e.CheckoutCompleted?
  {
    if e.session.None? then Done(s, CheckoutIgnored)
    else
      match e.session.value
      case FetchFailed => Threw
      case TopUp(t, tokens) =>
        if t.None? then Done(s, TopUpUnresolvedTenant)
        else if tokens <= 0 then Done(s, TopUpInvalid)
        else Done(s.(topUps := s.topUps[t.value := tokens + if t.value in s.topUps then s.topUps[t.value] else 0]),
          TopUpCredited)
      case OtherMode => Done(s, CheckoutIgnored)
      case SubscriptionMode(t, customer, sub) =>
        if t.None? then Done(s, CheckoutUnresolvedTenant)
        else if Key(t.value, Stripe) !in s.accounts then Done(s, CheckoutNoRow)
        else
          var k := Key(t.value, Stripe);
          var row := s.accounts[k];
          var booked :=
            row.(customerId := if customer.Some? then customer else row.customerId, subscriptionId := Some(sub));
          if UniqueIds(s.accounts[k := booked]) then Done(WithRow(s, k, booked), CheckoutBookkept) else Threw
  }

  predicate Releasable(s: Store, session: Option<Id>, t: Option<Id>) {
    session.Some? && t.Some? && t.value in s.reservations && s.reservations[t.value] == Reservation(session, None)
  }

  function HandleExpired(s: Store, e: Event): Result
    requires e.CheckoutExpired?
  {
    if Releasable(s, e.sessionId, e.tenant)
      then Done(s.(reservations := s.reservations - {e.tenant.value}), ReservationReleased)
    else Done(s, ReservationKept)
  }

  ghost function HandleMatched(s: Store, e: Event, k: Key, now: Time): Result
    requires RowEvent(e) && k in s.accounts
  {
    if e.SubscriptionUpsert? then HandleUpsert(s, e, k, now)
    else if e.SubscriptionDeleted? then HandleDeleted(s, e, k)
    else HandleInvoice(s, e, k, now)
  }

  /** `resolveEventRow` followed by `handleNormalizedEvent`. */
  ghost function Handle(s: Store, e: Event, now: Time): Result {
    if e.LogOnly? then Done(s, AuditOnly)
    else if e.CheckoutCompleted? then HandleCheckout(s, e)
    else if e.CheckoutExpired? then HandleExpired(s, e)
    else
      match Resolve(s.accounts, e)
      case None => Done(s, NoMatchingRow)
      case Some(k) => HandleMatched(s, e, k, now)
  }

  /** The savepoint around the handler: a throw leaves the rows as they were. */
  ghost function Webhook(s: Store, e: Event, now: Time): Store {
    match Handle(s, e, now)
    case Done(s', _) => s'
    case Threw => s
  }

  // ---------------------------------------------------------------- the other writers

  function NewRow(customerId: Option<Id>, status: Status, plan: Plan, primary: bool): Account {
    Account(customerId, None, status, plan, primary, None, false, None, None, None, None, None, None)
  }

  function ManualRow(s: Store, t: Id): Account {
    if Key(t, Manual) in s.accounts then s.accounts[Key(t, Manual)] else NewRow(None, NoPlan, Free, false)
  }

  /** First-signup trial: the reservation insert is the gate. A missing tenant fails its foreign key. */
  function GrantTrial(s: Store, t: Id, trialEnd: Time): (Store, bool) {
    if t in s.reservations || t !in s.tiers then (s, false)
    else
      var row := ManualRow(s, t).(status := Trialing, plan := Pro, trialEnd := Some(trialEnd));
      (s.(reservations := s.reservations[t := Reservation(None, None)],
          accounts := Crown(s.accounts[Key(t, Manual) := row], Key(t, Manual)),
          tiers := s.tiers[t := Pro]), true)
  }

  predicate TrialOver(s: Store, t: Id, now: Time) {
    var k := Key(t, Manual);
    && k in s.accounts && s.accounts[k].primary && s.accounts[k].status == Trialing
    && s.accounts[k].trialEnd.Some? && s.accounts[k].trialEnd.value <= now
  }

  function ExpireTrial(s: Store, t: Id, now: Time): Store {
    var k := Key(t, Manual);
    if !TrialOver(s, t, now) then s
    else s.(accounts := s.accounts[k := s.accounts[k].(status := NoPlan, plan := Free, trialEnd := None)],
      tiers := s.tiers[t := Free])
  }

  /** An optional argument: left out, null, or a value. */
  datatype Arg<T> = Omitted | Null | Given(value: T)
  datatype Options = Options(periodEnd: Arg<Time>, billingEmail: Arg<string>)

  function Assigned<T>(arg: Arg<T>, stored: Option<T>): Option<T> {
    match arg case Omitted => stored case Null => None case Given(v) => Some(v)
  }

  function Coalesced<T>(arg: Arg<T>, stored: Option<T>): Option<T> {
    if arg.Given? then Some(arg.value) else stored
  }

  function TargetStatus(tier: Plan): Status {
    if tier == Free then NoPlan else Active
  }

  predicate OnTarget(s: Store, t: Id, tier: Plan)
    requires t in s.tiers
  {
    var row := ManualRow(s, t);
    s.tiers[t] == tier && row.primary && row.plan == tier && row.status == TargetStatus(tier)
  }

  /** Already on target: only the optional fields move. Otherwise null options keep what is stored. */
  function SetTier(s: Store, t: Id, tier: Plan, opts: Options): Store {
    var k, row := Key(t, Manual), ManualRow(s, t);
    if t !in s.tiers then s
    else if OnTarget(s, t, tier) then
      WithRow(s, k,
        row.(periodEnd := Assigned(opts.periodEnd, row.periodEnd),
          billingEmail := Assigned(opts.billingEmail, row.billingEmail)))
    else
      var written :=
        row.(status := TargetStatus(tier), plan := tier, periodEnd := Coalesced(opts.periodEnd, row.periodEnd),
                          billingEmail := Coalesced(opts.billingEmail, row.billingEmail));
      s.(accounts := Crown(s.accounts[k := written], k), tiers := s.tiers[t := tier])
  }

  /** `startCheckout` keeps a stored customer id and inserts a non-primary row when there is none. */
  function CheckoutUpsert(s: Store, t: Id, customer: Id): Store {
    var k := Key(t, Stripe);
    if t !in s.tiers then s
    else
      var row := if k in s.accounts then s.accounts[k] else NewRow(None, NoPlan, Free, false);
      var written :=
        s.accounts[k := row.(customerId := if row.customerId.Some? then row.customerId else Some(customer))];
      if UniqueIds(written) then s.(accounts := written) else s
  }

  /** A Pro checkout reserves the trial, unless one was reserved before. */
  function ReserveTrial(s: Store, t: Id, session: Id): Store {
    if t in s.reservations || t !in s.tiers then s
    else s.(reservations := s.reservations[t := Reservation(Some(session), None)])
  }

  // ---------------------------------------------------------------- dunning

  /** The guard of `cancelPastDueSubscriptionNow`. */
  predicate Overdue(s: Store, t: Id, now: Time) {
    var k := Key(t, Stripe);
    && k in s.accounts && s.accounts[k].primary && s.accounts[k].status == PastDue && s.accounts[k].subscriptionId.Some?
    && s.accounts[k].clock.Some? && now >= s.accounts[k].clock.value + GRACE
  }

  function CancelPastDue(s: Store, t: Id, now: Time, stripeCancels: bool): Store {
    if Overdue(s, t, now) && stripeCancels then Drop(s, Key(t, Stripe)) else s
  }

  /** One sweep, as one step: every overdue tenant whose Stripe cancel succeeds is dropped. */
  function Sweep(s: Store, now: Time, stripeCancels: set<Id>): Store {
    s.(accounts := map k | k in s.accounts ::
         if k.provider == Stripe && Overdue(s, k.tenant, now) && k.tenant in stripeCancels then Dropped(s.accounts[k])
           else s.accounts[k],
       tiers := map t | t in s.tiers :: if Overdue(s, t, now) && t in stripeCancels then Free else s.tiers[t])
  }

  datatype DunningDay = Day0 | Day1 | Day2
  /** The idempotency key of a reminder e-mail. */
  datatype Reminder = Reminder(tenant: Id, started: Time, day: DunningDay)

  function HighestDueDay(elapsed: Time): DunningDay {
    if elapsed >= 2 * DAY then Day2 else if elapsed >= DAY then Day1 else Day0
  }

  /** The tenant's row is in its grace period: the guard of `sendDunningReminder`. */
  predicate RemindableRow(s: Store, t: Id, now: Time) {
    var k := Key(t, Stripe);
    k in s.accounts && s.accounts[k].primary && s.accounts[k].status == PastDue && s.accounts[k].clock.Some?
    && now < s.accounts[k].clock.value + GRACE
  }

  function DueReminder(s: Store, t: Id, now: Time): Reminder
    requires RemindableRow(s, t, now)
  {
    var started := s.accounts[Key(t, Stripe)].clock.value;
    Reminder(t, started, HighestDueDay(now - started))
  }

  // ---------------------------------------------------------------- whole runs

  datatype Command =
    | Deliver(e: Event, now: Time)
    | Grant(t: Id, trialEnd: Time)
    | Expire(t: Id, now: Time)
    | Override(t: Id, tier: Plan, opts: Options)
    | StartCheckout(t: Id, customer: Id)
    | Reserve(t: Id, session: Id)
    | RunSweep(now: Time, stripeCancels: set<Id>)

  ghost function Apply(s: Store, c: Command): Store {
    match c
    case Deliver(e, now) => Webhook(s, e, now)
    case Grant(t, trialEnd) => GrantTrial(s, t, trialEnd).0
    case Expire(t, now) => ExpireTrial(s, t, now)
    case Override(t, tier, opts) => SetTier(s, t, tier, opts)
    case StartCheckout(t, customer) => CheckoutUpsert(s, t, customer)
    case Reserve(t, session) => ReserveTrial(s, t, session)
    case RunSweep(now, stripeCancels) => Sweep(s, now, stripeCancels)
  }

  ghost function Run(s: Store, commands: seq<Command>): Store {
    if commands == [] then s else Apply(Run(s, commands[..|commands| - 1]), commands[|commands| - 1])
  }
}
