/**
 The idempotency protocol around inbound Stripe events, as a state machine over its statements:
 any number of workers, each in its own transaction, interleave at every statement, fail in the
 handler, crash anywhere, and are redelivered the same event. The handler is a parameter; the
 advisory-lock key is an arbitrary hash, so different events may collide on it.
 */
module WebhookLedger {
  import opened Wrappers

  type EventId = string
  type TenantId = string
  type WorkerId = nat

  datatype LogStatus = Processing | Processed | Failed
  datatype LogRow = LogRow(status: LogStatus, attempts: nat)

  /**
   `resolve` is the row lookup, `apply` the mutation of that tenant's rows; None is a throw. Both read the
   event and what this attempt learns on the way: the clock, and what Stripe answers.
   */
  datatype World<!B, !I> = World(
    lockKey: EventId -> int,
    resolve: (EventId, I, map<TenantId, B>) -> Option<TenantId>,
    apply: (EventId, I, B) -> Option<B>)

  datatype Write<B> = Write(tenant: TenantId, value: B)

  /** Where a worker's transaction is, with what it has written but not committed. */
  datatype Tx<B, I> =
    | Begun(event: EventId)
    | HoldsLock(event: EventId)
    | Cleared(event: EventId)
    | Upserted(event: EventId, row: LogRow)
    | HandlerReturned(event: EventId, row: LogRow, input: I, write: Option<Write<B>>)
    | HandlerThrew(event: EventId, row: LogRow)
    | FinalProcessed(event: EventId, row: LogRow, input: I, write: Option<Write<B>>)
    | FinalFailed(event: EventId, row: LogRow)
    | Committed(event: EventId)

  /** One committed application of the handler, with what that attempt read. */
  datatype Entry<I> = Entry(event: EventId, tenant: Option<TenantId>, input: I)

  datatype Reply = LockUnavailable | Replay | RepliedProcessed | RepliedFailed

  /** The committed database, the locks, the open transactions, and what happened so far. */
  datatype State<B, I> = State(
    log: map<EventId, LogRow>,
    billing: map<TenantId, B>,
    advisory: map<int, WorkerId>,
    rowLocks: map<TenantId, WorkerId>,
    txs: map<WorkerId, Tx<B, I>>,
    history: seq<Entry<I>>,
    replies: seq<(EventId, Reply)>)

  datatype Step<I> =
    | Deliver(worker: WorkerId, event: EventId)
    | TryLock(worker: WorkerId)
    | CheckLog(worker: WorkerId)
    | UpsertProcessing(worker: WorkerId)
    | RunHandler(worker: WorkerId, throws: bool, input: I)
    | Finalize(worker: WorkerId)
    | Commit(worker: WorkerId)
    | Answer(worker: WorkerId, invalidationThrows: bool)
    | Crash(worker: WorkerId)

  predicate Done(log: map<EventId, LogRow>, e: EventId) {
    e in log && log[e].status == Processed
  }

  predicate HoldsAdvisory<B, I>(tx: Tx<B, I>) {
    !tx.Begun? && !tx.Committed?
  }

  /** Ending a transaction releases every lock it took. */
  function Release<B, I>(s: State<B, I>, w: WorkerId): State<B, I> {
    s.(advisory := map k | k in s.advisory && s.advisory[k] != w :: s.advisory[k],
       rowLocks := map t | t in s.rowLocks && s.rowLocks[t] != w :: s.rowLocks[t])
  }

  function Rollback<B, I>(s: State<B, I>, w: WorkerId): State<B, I> {
    Release(s, w).(txs := s.txs - {w})
  }

  function Replied<B, I>(s: State<B, I>, event: EventId, reply: Reply): State<B, I> {
    s.(replies := s.replies + [(event, reply)])
  }

  function Advance<B, I>(s: State<B, I>, w: WorkerId, tx: Tx<B, I>): State<B, I> {
    s.(txs := s.txs[w := tx])
  }

  /** A parallel worker on the same key means back off; the lock is taken without waiting. */
  function AfterTryLock<B, I>(world: World<B, I>, s: State<B, I>, w: WorkerId): State<B, I>
    requires w in s.txs && s.txs[w].Begun?
  {
    var key := world.lockKey(s.txs[w].event);
    if key in s.advisory then Replied(Rollback(s, w), s.txs[w].event, LockUnavailable)
    else Advance(s, w, HoldsLock(s.txs[w].event)).(advisory := s.advisory[key := w])
  }

  function AfterCheck<B, I>(s: State<B, I>, w: WorkerId): State<B, I>
    requires w in s.txs && s.txs[w].HoldsLock?
  {
    var e := s.txs[w].event;
    if Done(s.log, e) then Replied(Rollback(s, w), e, Replay) else Advance(s, w, Cleared(e))
  }

  function AfterUpsert<B, I>(s: State<B, I>, w: WorkerId): State<B, I>
    requires w in s.txs && s.txs[w].Cleared?
  {
    var e := s.txs[w].event;
    Advance(s, w, Upserted(e, LogRow(Processing, if e in s.log then s.log[e].attempts + 1 else 1)))
  }

  /** The tenant whose rows the lookup finds, if it finds any. */
  function Target<B, I>(world: World<B, I>, e: EventId, input: I, billing: map<TenantId, B>): Option<TenantId> {
    var t := world.resolve(e, input, billing);
    if t.Some? && t.value in billing then t else None
  }

  /** Inside the savepoint: look the row up, lock it, compute on the committed value. */
  function AfterHandler<B, I>(world: World<B, I>, s: State<B, I>, w: WorkerId, throws: bool, input: I): State<B, I>
    requires w in s.txs && s.txs[w].Upserted?
  {
    var Upserted(e, row) := s.txs[w];
    var target := Target(world, e, input, s.billing);
    if throws then Advance(s, w, HandlerThrew(e, row))
    else if target.None? then Advance(s, w, HandlerReturned(e, row, input, None))
    else if target.value in s.rowLocks then s // waits for the row lock
    else
      match world.apply(e, input, s.billing[target.value])
      case None => Advance(s, w, HandlerThrew(e, row))
      case Some(b) =>
        Advance(s, w,
          HandlerReturned(e, row, input, Some(Write(target.value, b)))).(rowLocks := s.rowLocks[target.value := w])
  }

  function AfterFinalize<B, I>(s: State<B, I>, w: WorkerId): State<B, I>
    requires w in s.txs && (s.txs[w].HandlerReturned? || s.txs[w].HandlerThrew?)
  {
    match s.txs[w]
    case HandlerReturned(e, row, input, write) => Advance(s, w,
      FinalProcessed(e, row.(status := Processed), input, write))
    case HandlerThrew(e, row) => Advance(s, w, FinalFailed(e, row.(status := Failed)))
  }

  function EntryOf<B, I>(tx: Tx<B, I>): Entry<I>
    requires tx.FinalProcessed?
  {
    Entry(tx.event, if tx.write.Some? then Some(tx.write.value.tenant) else None, tx.input)
  }

  function AfterCommit<B, I>(s: State<B, I>, w: WorkerId): State<B, I>
    requires w in s.txs && (s.txs[w].FinalProcessed? || s.txs[w].FinalFailed?)
  {
    var tx := s.txs[w];
    if tx.FinalProcessed? then
      Release(s, w).(log := s.log[tx.event := tx.row],
                     billing := if tx.write.Some? then s.billing[tx.write.value.tenant := tx.write.value.value]
                       else s.billing,
                     txs := s.txs[w := Committed(tx.event)],
                     history := s.history + [EntryOf(tx)])
    else
      Replied(Rollback(s, w).(log := s.log[tx.event := tx.row]), tx.event, RepliedFailed)
  }

  /**
   After the commit only the answer is left; the cache invalidation before it may throw, or the commit's own
   acknowledgement be lost.
   */
  function AfterAnswer<B, I>(s: State<B, I>, w: WorkerId, invalidationThrows: bool): State<B, I>
    requires w in s.txs && s.txs[w].Committed?
  {
    Replied(s.(txs := s.txs - {w}), s.txs[w].event, if invalidationThrows then RepliedFailed else RepliedProcessed)
  }

  function AfterCrash<B, I>(s: State<B, I>, w: WorkerId): State<B, I>
    requires w in s.txs
  {
    if s.txs[w].Committed? then s.(txs := s.txs - {w}) else Replied(Rollback(s, w), s.txs[w].event, RepliedFailed)
  }

  predicate Enabled<B, I>(s: State<B, I>, step: Step<I>) {
    if step.Deliver? then step.worker !in s.txs
    else
      && step.worker in s.txs
      && var tx := s.txs[step.worker];
         match step
         case Deliver(_, _) => true
         case Crash(_) => true
         case TryLock(_) => tx.Begun?
         case CheckLog(_) => tx.HoldsLock?
         case UpsertProcessing(_) => tx.Cleared?
         case RunHandler(_, _, _) => tx.Upserted?
         case Finalize(_) => tx.HandlerReturned? || tx.HandlerThrew?
         case Commit(_) => tx.FinalProcessed? || tx.FinalFailed?
         case Answer(_, _) => tx.Committed?
  }

  /** One statement of one worker. A step that is not enabled leaves the state as it was. */
  function Next<B, I>(world: World<B, I>, s: State<B, I>, step: Step<I>): State<B, I> {
    if !Enabled(s, step) then s
    else
      match step
      case Deliver(w, e) => Advance(s, w, Begun(e))
      case TryLock(w) => AfterTryLock(world, s, w)
      case CheckLog(w) => AfterCheck(s, w)
      case UpsertProcessing(w) => AfterUpsert(s, w)
      case RunHandler(w, throws, input) => AfterHandler(world, s, w, throws, input)
      case Finalize(w) => AfterFinalize(s, w)
      case Commit(w) => AfterCommit(s, w)
      case Answer(w, invalidationThrows) => AfterAnswer(s, w, invalidationThrows)
      case Crash(w) => AfterCrash(s, w)
  }

  function Run<B, I>(world: World<B, I>, s: State<B, I>, steps: seq<Step<I>>): State<B, I> {
    if steps == [] then s else Next(world, Run(world, s, steps[..|steps| - 1]), steps[|steps| - 1])
  }

  /** Any database with nothing in flight: billing rows, and log rows of earlier deliveries. */
  ghost predicate Quiet<B, I>(s: State<B, I>) {
    && s.advisory == map[] && s.rowLocks == map[] && s.txs == map[] && s.history == [] && s.replies == []
    && forall e :: e in s.log ==> s.log[e].status != Processing
  }

  // ---------------------------------------------------------------- the sequential meaning

  /** The handler applied once per entry, in order, starting from `b`. */
  function Serial<B, I>(world: World<B, I>, b: map<TenantId, B>, history: seq<Entry<I>>): map<TenantId, B> {
    if history == [] then b
    else
      var before := Serial(world, b, history[..|history| - 1]);
      var last := history[|history| - 1];
      if last.tenant.None? || last.tenant.value !in before then before
      else
        match world.apply(last.event, last.input, before[last.tenant.value])
        case None => before
        case Some(v) => before[last.tenant.value := v]
  }

  ghost predicate Applied<I>(history: seq<Entry<I>>, e: EventId) {
    exists i :: 0 <= i < |history| && history[i].event == e
  }

  ghost predicate Distinct<I>(history: seq<Entry<I>>) {
    forall i, j :: 0 <= i < j < |history| ==> history[i].event != history[j].event
  }

  /** Every application in the history found its tenant and did not throw. */
  ghost predicate Succeeds<B, I>(world: World<B, I>, b: map<TenantId, B>, history: seq<Entry<I>>) {
    history != [] ==>
      var before := Serial(world, b, history[..|history| - 1]);
      var last := history[|history| - 1];
      && Succeeds(world, b, history[..|history| - 1])
      && (last.tenant.Some? ==>
         last.tenant.value in before && world.apply(last.event, last.input, before[last.tenant.value]).Some?)
  }

  /** Exactly once, over the committed rows. */
  ghost predicate ExactlyOnce<B, I>(world: World<B, I>, init: State<B, I>, s: State<B, I>) {
    && s.billing == Serial(world, init.billing, s.history) && Succeeds(world, init.billing, s.history)
    && Distinct(s.history)
    && (forall e :: Done(s.log, e) <==> Done(init.log, e) || Applied(s.history, e))
    && (forall e :: Applied(s.history, e) ==> !Done(init.log, e))
    && (forall e :: e in s.log ==> s.log[e].status != Processing)
  }

  ghost predicate PendingWrite<B, I>(world: World<B, I>, s: State<B, I>, w: WorkerId, e: EventId, input: I,
                                     write: Option<Write<B>>) {
    write.Some? ==>
      var t := write.value.tenant;
      && t in s.billing && t in s.rowLocks && s.rowLocks[t] == w
      && world.apply(e, input, s.billing[t]) == Some(write.value.value)
  }

  /** What one open transaction relies on. */
  ghost predicate TxOk<B, I>(world: World<B, I>, s: State<B, I>, w: WorkerId, tx: Tx<B, I>) {
    && (HoldsAdvisory(tx) ==>
          world.lockKey(tx.event) in s.advisory && s.advisory[world.lockKey(tx.event)] == w)
    && (HoldsAdvisory(tx) && !tx.HoldsLock? ==> !Done(s.log, tx.event))
    && (tx.HandlerReturned? || tx.FinalProcessed? ==> PendingWrite(world, s, w, tx.event, tx.input, tx.write))
    && (tx.FinalProcessed? ==> tx.row.status == Processed)
    && (tx.FinalFailed? ==> tx.row.status == Failed)
    && (tx.Committed? ==> Done(s.log, tx.event))
  }

  /** Answers of success are given only for events whose effects are committed. */
  ghost predicate RepliesTruthful<B, I>(s: State<B, I>) {
    forall i :: 0 <= i < |s.replies| && (s.replies[i].1 == Replay || s.replies[i].1 == RepliedProcessed) ==>
      Done(s.log, s.replies[i].0)
  }

  ghost predicate Inv<B, I>(world: World<B, I>, init: State<B, I>, s: State<B, I>) {
    && ExactlyOnce(world, init, s) && RepliesTruthful(s)
    && (forall w :: w in s.txs ==> TxOk(world, s, w, s.txs[w]))
  }

  /** What one step of `w` may not do to the others: take their locks, or write rows they hold. */
  ghost predicate Frame<B, I>(world: World<B, I>, s: State<B, I>, s': State<B, I>, w: WorkerId) {
    && (forall k :: k in s.advisory && s.advisory[k] != w ==> k in s'.advisory && s'.advisory[k] == s.advisory[k])
    && (forall t :: t in s.rowLocks && s.rowLocks[t] != w ==> t in s'.rowLocks && s'.rowLocks[t] == s.rowLocks[t])
    && (forall v :: v in s'.txs && v != w ==> v in s.txs && s'.txs[v] == s.txs[v])
    && (forall e :: Done(s.log, e) ==> Done(s'.log, e))
    && (forall e :: Done(s'.log, e) && !Done(s.log, e) ==>
          world.lockKey(e) in s.advisory && s.advisory[world.lockKey(e)] == w)
    && s.billing.Keys <= s'.billing.Keys
    && (forall t :: t in s.billing && s'.billing[t] != s.billing[t] ==> t in s.rowLocks && s.rowLocks[t] == w)
  }

  lemma OthersUndisturbed<B, I>(world: World<B, I>, s: State<B, I>, s': State<B, I>, w: WorkerId)
    requires Frame(world, s, s', w)
    requires forall v :: v in s.txs ==> TxOk(world, s, v, s.txs[v])
    ensures forall v :: v in s'.txs && v != w ==> TxOk(world, s', v, s'.txs[v])
  {
    forall v | v in s'.txs && v != w ensures TxOk(world, s', v, s'.txs[v]) {
      assert TxOk(world, s, v, s.txs[v]);
      var k := world.lockKey(s.txs[v].event);
      assert HoldsAdvisory(s.txs[v]) ==> k in s.advisory && s.advisory[k] == v;
    }
  }

  lemma HistoryGrows<I>(history: seq<Entry<I>>, entry: Entry<I>, e: EventId)
    ensures Applied(history + [entry], e) <==> Applied(history, e) || entry.event == e
  {
    var grown := history + [entry];
    if Applied(history, e) {
      var i :| 0 <= i < |history| && history[i].event == e;
      assert grown[i].event == e;
    }
    assert grown[|history|] == entry;
  }

  /** Committing a handler's result appends exactly its application. */
  lemma CommitApplies<B, I>(world: World<B, I>, init: State<B, I>, s: State<B, I>, w: WorkerId)
    requires ExactlyOnce(world, init, s) && w in s.txs && s.txs[w].FinalProcessed? && TxOk(world, s, w, s.txs[w])
    ensures ExactlyOnce(world, init, AfterCommit(s, w))
  {
    CommitExtendsSerial(world, init, s, w);
    CommitMarks(s, w);
  }

  lemma CommitMarks<B, I>(s: State<B, I>, w: WorkerId)
    requires w in s.txs && s.txs[w].FinalProcessed? && s.txs[w].row.status == Processed
    ensures forall x :: Done(AfterCommit(s, w).log, x) <==> Done(s.log, x) || x == s.txs[w].event
    ensures forall x :: Applied(AfterCommit(s, w).history, x) <==> Applied(s.history, x) || x == s.txs[w].event
    ensures forall x :: x in AfterCommit(s, w).log ==>
      x == s.txs[w].event || (x in s.log && AfterCommit(s, w).log[x] == s.log[x])
  {
    forall x ensures Applied(AfterCommit(s, w).history, x) <==> Applied(s.history, x) || x == s.txs[w].event {
      HistoryGrows(s.history, EntryOf(s.txs[w]), x);
    }
  }

  lemma CommitExtendsSerial<B, I>(world: World<B, I>, init: State<B, I>, s: State<B, I>, w: WorkerId)
    requires ExactlyOnce(world, init, s) && w in s.txs && s.txs[w].FinalProcessed? && TxOk(world, s, w, s.txs[w])
    ensures var s' := AfterCommit(s, w);
            && s'.billing == Serial(world, init.billing, s'.history) && Succeeds(world, init.billing, s'.history)
            && Distinct(s'.history)
  {
    var s' := AfterCommit(s, w);
    assert s'.history[..|s.history|] == s.history;
    assert !Applied(s.history, s.txs[w].event);
  }

  lemma CommitFrames<B, I>(world: World<B, I>, s: State<B, I>, w: WorkerId)
    requires w in s.txs && (s.txs[w].FinalProcessed? || s.txs[w].FinalFailed?) && TxOk(world, s, w, s.txs[w])
    ensures Frame(world, s, AfterCommit(s, w), w)
    ensures w in AfterCommit(s, w).txs ==> TxOk(world, AfterCommit(s, w), w, AfterCommit(s, w).txs[w])
  {
  }

  /** A step of `w` that leaves every committed row alone and answers truthfully. */
  ghost predicate Silent<B, I>(world: World<B, I>, s: State<B, I>, s': State<B, I>, w: WorkerId) {
    && s'.billing == s.billing && s'.history == s.history && s'.log == s.log
    && Frame(world, s, s', w) && (w in s'.txs ==> TxOk(world, s', w, s'.txs[w]))
    && (RepliesTruthful(s) ==> RepliesTruthful(s'))
  }

  lemma ReplyKeepsTruth<B, I>(s: State<B, I>, s': State<B, I>, e: EventId, reply: Reply)
    requires s'.log == s.log && s'.replies == s.replies + [(e, reply)]
    requires reply == Replay || reply == RepliedProcessed ==> Done(s.log, e)
    ensures RepliesTruthful(s) ==> RepliesTruthful(s')
  {
  }

  lemma RollbackFrames<B, I>(world: World<B, I>, s: State<B, I>, w: WorkerId)
    requires w in s.txs
    ensures Frame(world, s, Rollback(s, w), w)
  {
  }

  lemma AdvanceFrames<B, I>(world: World<B, I>, s: State<B, I>, w: WorkerId, tx: Tx<B, I>)
    ensures Frame(world, s, Advance(s, w, tx), w)
  {
  }

  lemma LockStep<B, I>(world: World<B, I>, s: State<B, I>, w: WorkerId)
    requires w in s.txs && s.txs[w].Begun?
    ensures Silent(world, s, AfterTryLock(world, s, w), w)
  {
    var e, s' := s.txs[w].event, AfterTryLock(world, s, w);
    if world.lockKey(e) in s.advisory {
      RollbackFrames(world, s, w);
      ReplyKeepsTruth(s, s', e, LockUnavailable);
    } else {
      AdvanceFrames(world, s, w, HoldsLock(e));
      assert s'.replies == s.replies && s'.log == s.log;
    }
  }

  lemma CheckStep<B, I>(world: World<B, I>, s: State<B, I>, w: WorkerId)
    requires w in s.txs && s.txs[w].HoldsLock? && TxOk(world, s, w, s.txs[w])
    ensures Silent(world, s, AfterCheck(s, w), w)
  {
  }

  lemma HandlerStep<B, I>(world: World<B, I>, s: State<B, I>, w: WorkerId, throws: bool, input: I)
    requires w in s.txs && s.txs[w].Upserted? && TxOk(world, s, w, s.txs[w])
    ensures Silent(world, s, AfterHandler(world, s, w, throws, input), w)
  {
    var s' := AfterHandler(world, s, w, throws, input);
    if s'.txs[w].HandlerReturned? && s'.txs[w].write.Some? {
      var t := s'.txs[w].write.value.tenant;
      assert t !in s.rowLocks && s' == Advance(s, w, s'.txs[w]).(rowLocks := s.rowLocks[t := w]);
      LockingWriteIsSilent(world, s, w, s'.txs[w], t);
    } else {
      assert s' == Advance(s, w, s'.txs[w]);
      AdvanceFrames(world, s, w, s'.txs[w]);
    }
  }

  /** A handler's write takes its row's lock, which was free, and leaves the row. */
  lemma LockingWriteIsSilent<B, I>(world: World<B, I>, s: State<B, I>, w: WorkerId, tx: Tx<B, I>, t: TenantId)
    requires w in s.txs && s.txs[w].Upserted? && TxOk(world, s, w, s.txs[w]) && t !in s.rowLocks && t in s.billing
    requires tx.HandlerReturned? && tx.write.Some? && tx.write.value.tenant == t && tx.event == s.txs[w].event
    requires world.apply(tx.event, tx.input, s.billing[t]) == Some(tx.write.value.value)
    ensures Silent(world, s, Advance(s, w, tx).(rowLocks := s.rowLocks[t := w]), w)
  {
  }

  lemma LocalStep<B, I>(world: World<B, I>, s: State<B, I>, step: Step<I>)
    requires Enabled(s, step) && (step.worker in s.txs ==> TxOk(world, s, step.worker, s.txs[step.worker]))
    requires step.Deliver? || step.UpsertProcessing? || step.Finalize?
    ensures Silent(world, s, Next(world, s, step), step.worker)
  {
    var s' := Next(world, s, step);
    AdvanceFrames(world, s, step.worker, s'.txs[step.worker]);
    assert s' == Advance(s, step.worker, s'.txs[step.worker]);
    TxCarriesOver(world, s, step);
  }

  lemma TxCarriesOver<B, I>(world: World<B, I>, s: State<B, I>, step: Step<I>)
    requires Enabled(s, step) && (step.worker in s.txs ==> TxOk(world, s, step.worker, s.txs[step.worker]))
    requires step.Deliver? || step.UpsertProcessing? || step.Finalize?
    ensures TxOk(world, Next(world, s, step), step.worker, Next(world, s, step).txs[step.worker])
  {
  }

  lemma AnswerStep<B, I>(world: World<B, I>, s: State<B, I>, w: WorkerId, throws: bool)
    requires w in s.txs && s.txs[w].Committed? && TxOk(world, s, w, s.txs[w])
    ensures Silent(world, s, AfterAnswer(s, w, throws), w)
  {
    ReplyKeepsTruth(s, AfterAnswer(s, w, throws), s.txs[w].event, if throws then RepliedFailed else RepliedProcessed);
  }

  lemma CrashStep<B, I>(world: World<B, I>, s: State<B, I>, w: WorkerId)
    requires w in s.txs && TxOk(world, s, w, s.txs[w])
    ensures Silent(world, s, AfterCrash(s, w), w)
  {
    if !s.txs[w].Committed? {
      RollbackFrames(world, s, w);
      ReplyKeepsTruth(s, AfterCrash(s, w), s.txs[w].event, RepliedFailed);
    }
  }

  lemma SilentStep<B, I>(world: World<B, I>, s: State<B, I>, step: Step<I>)
    requires Enabled(s, step) && !step.Commit?
      && (step.worker in s.txs ==> TxOk(world, s, step.worker, s.txs[step.worker]))
    ensures Silent(world, s, Next(world, s, step), step.worker)
  {
    match step {
      case TryLock(w) => LockStep(world, s, w);
      case CheckLog(w) => CheckStep(world, s, w);
      case RunHandler(w, throws, input) => HandlerStep(world, s, w, throws, input);
      case Answer(w, throws) => AnswerStep(world, s, w, throws);
      case Crash(w) => CrashStep(world, s, w);
      case _ => LocalStep(world, s, step);
    }
  }

  lemma CommitKeepsInv<B, I>(world: World<B, I>, init: State<B, I>, s: State<B, I>, w: WorkerId)
    requires Inv(world, init, s) && w in s.txs && (s.txs[w].FinalProcessed? || s.txs[w].FinalFailed?)
    ensures Inv(world, init, AfterCommit(s, w))
  {
    assert TxOk(world, s, w, s.txs[w]);
    CommitFrames(world, s, w);
    if s.txs[w].FinalProcessed? { CommitApplies(world, init, s, w); }
    OthersUndisturbed(world, s, AfterCommit(s, w), w);
  }

  /** Every statement of every worker keeps the invariant. */
  lemma NextKeepsInv<B, I>(world: World<B, I>, init: State<B, I>, s: State<B, I>, step: Step<I>)
    requires Inv(world, init, s)
    ensures Inv(world, init, Next(world, s, step))
  {
    if Enabled(s, step) {
      var s', w := Next(world, s, step), step.worker;
      if w in s.txs { assert TxOk(world, s, w, s.txs[w]); }
      if step.Commit? {
        CommitKeepsInv(world, init, s, w);
      } else {
        SilentStep(world, s, step);
        OthersUndisturbed(world, s, s', w);
      }
    }
  }

  lemma QuietIsInv<B, I>(world: World<B, I>, s: State<B, I>)
    requires Quiet(s)
    ensures Inv(world, s, s)
  {
  }

  /**
   Exactly once: in every interleaving of deliveries, redeliveries, failures and crashes, the
   committed billing rows equal the handler applied once per event whose log row is processed, in
   commit order.
   */
  lemma {:induction false} EffectsAreExactlyOnce<B, I>(world: World<B, I>, init: State<B, I>, steps: seq<Step<I>>)
    requires Quiet(init)
    ensures Inv(world, init, Run(world, init, steps)) && ExactlyOnce(world, init, Run(world, init, steps))
    decreases |steps|
  {
    if steps == [] {
      QuietIsInv(world, init);
    } else {
      EffectsAreExactlyOnce(world, init, steps[..|steps| - 1]);
      NextKeepsInv(world, init, Run(world, init, steps[..|steps| - 1]), steps[|steps| - 1]);
    }
  }

  /**
   A step changes billing rows only by committing a successful handler, and then its log row turns
   processed; a failed attempt changes its own log row and nothing else; a processed row never changes.
   */
  lemma OnlySuccessTouchesBilling<B, I>(world: World<B, I>, init: State<B, I>, s: State<B, I>, step: Step<I>)
    requires Inv(world, init, s)
    ensures var s' := Next(world, s, step);
            && (s'.log != s.log || s'.billing != s.billing || s'.history != s.history ==>
                  && step.Commit? && step.worker in s.txs
                  && var e := s.txs[step.worker].event;
                     && !Done(s.log, e) && e in s'.log && s'.log == s.log[e := s'.log[e]]
                     && if Done(s'.log, e) then |s'.history| == |s.history| + 1 && s.history < s'.history
                        else s'.log[e].status == Failed && s'.billing == s.billing && s'.history == s.history)
  {
    if Enabled(s, step) {
      if step.worker in s.txs { assert TxOk(world, s, step.worker, s.txs[step.worker]); }
      if !step.Commit? { SilentStep(world, s, step); }
    }
  }

  lemma {:induction false} RunSplits<B, I>(world: World<B, I>, s: State<B, I>, first: seq<Step<I>>,
                                           second: seq<Step<I>>)
    ensures Run(world, s, first + second) == Run(world, Run(world, s, first), second)
    decreases |second|
  {
    if second == [] {
      assert first + second == first;
    } else {
      var n := |second| - 1;
      var last := second[n];
      RunSplits(world, s, first, second[..n]);
      RunExtends(world, s, first + second[..n], last);
      RunExtends(world, Run(world, s, first), second[..n], last);
      assert first + second == first + second[..n] + [last] && second == second[..n] + [last];
    }
  }

  /** Processed is absorbing: whatever is delivered later, the row stays and the history only grows. */
  lemma ProcessedIsAbsorbing<B, I>(world: World<B, I>, init: State<B, I>, steps: seq<Step<I>>, later: seq<Step<I>>,
                                   e: EventId)
    requires Quiet(init)
    requires Done(Run(world, init, steps).log, e)
    ensures var s, s' := Run(world, init, steps), Run(world, init, steps + later);
            && e in s'.log && s'.log[e] == s.log[e] && s.history <= s'.history
  {
    EffectsAreExactlyOnce(world, init, steps);
    RunSplits(world, init, steps, later);
    RunAbsorbs(world, init, Run(world, init, steps), later, e);
  }

  lemma {:induction false} RunAbsorbs<B, I>(world: World<B, I>, init: State<B, I>, s: State<B, I>, later: seq<Step<I>>,
                                            e: EventId)
    requires Inv(world, init, s) && Done(s.log, e)
    ensures var s' := Run(world, s, later);
            Inv(world, init, s') && e in s'.log && s'.log[e] == s.log[e] && s.history <= s'.history
    decreases |later|
  {
    if later != [] {
      var n := |later| - 1;
      RunAbsorbs(world, init, s, later[..n], e);
      NextKeepsInv(world, init, Run(world, s, later[..n]), later[n]);
      StepAbsorbs(world, init, Run(world, s, later[..n]), later[n], e);
    }
  }

  lemma StepAbsorbs<B, I>(world: World<B, I>, init: State<B, I>, s: State<B, I>, step: Step<I>, e: EventId)
    requires Inv(world, init, s) && Done(s.log, e)
    ensures var s' := Next(world, s, step); e in s'.log && s'.log[e] == s.log[e] && s.history <= s'.history
  {
    OnlySuccessTouchesBilling(world, init, s, step);
  }

  // ---------------------------------------------------------------- what the caller is told

  /** "Processed" and "replay" answers are given only for events whose effects are committed. */
  lemma SuccessAnswersAreTrue<B, I>(world: World<B, I>, init: State<B, I>, steps: seq<Step<I>>, i: nat)
    requires Quiet(init) && i < |Run(world, init, steps).replies|
    requires var reply := Run(world, init, steps).replies[i]; reply.1 == Replay || reply.1 == RepliedProcessed
    ensures var s := Run(world, init, steps);
            Done(init.log, s.replies[i].0) || Applied(s.history, s.replies[i].0)
  {
    EffectsAreExactlyOnce(world, init, steps);
  }

  lemma RunExtends<B, I>(world: World<B, I>, s: State<B, I>, steps: seq<Step<I>>, step: Step<I>)
    ensures Run(world, s, steps + [step]) == Next(world, Run(world, s, steps), step)
  {
    assert (steps + [step])[..|steps|] == steps;
  }

  /** One delivery of `e` by worker 0, up to its commit. */
  function OneDelivery<I>(e: EventId, input: I): seq<Step<I>> {
    [] + [Deliver(0, e)] + [TryLock(0)] + [CheckLog(0)] + [UpsertProcessing(0)]
      + [RunHandler(0, false, input)] + [Finalize(0)]
       + [Commit(0)]
  }

  /** A quiet database with worker 0 about to run the handler of `e`. */
  function AboutToRun<B, I>(world: World<B, I>, init: State<B, I>, e: EventId): State<B, I> {
    init.(txs := map[0 := Upserted(e, LogRow(Processing, if e in init.log then init.log[e].attempts + 1 else 1))],
          advisory := map[world.lockKey(e) := 0])
  }

  lemma DeliveryLocks<B, I>(world: World<B, I>, init: State<B, I>, e: EventId)
    requires Quiet(init)
    ensures Run(world, init, [] + [Deliver(0, e)] + [TryLock(0)])
      == init.(txs := map[0 := HoldsLock(e)], advisory := map[world.lockKey(e) := 0])
  {
    RunExtends(world, init, [], Deliver(0, e));
    RunExtends(world, init, [] + [Deliver(0, e)], TryLock(0));
  }

  lemma DeliveryPrepares<B, I>(world: World<B, I>, init: State<B, I>, e: EventId)
    requires Quiet(init) && !Done(init.log, e)
    ensures Run(world, init, [] + [Deliver(0, e)] + [TryLock(0)] + [CheckLog(0)] + [UpsertProcessing(0)]) ==
            AboutToRun(world, init, e)
  {
    var d2 := [] + [Deliver(0, e)] + [TryLock(0)];
    DeliveryLocks(world, init, e);
    RunExtends(world, init, d2, CheckLog(0));
    RunExtends(world, init, d2 + [CheckLog(0)], UpsertProcessing(0));
    hide Run;
    var locked := init.(txs := map[0 := HoldsLock(e)], advisory := map[world.lockKey(e) := 0]);
    var cleared := init.(txs := map[0 := Cleared(e)], advisory := map[world.lockKey(e) := 0]);
    assert locked.txs[0 := Cleared(e)] == cleared.txs;
    assert Next(world, locked, CheckLog(0)) == cleared;
    assert cleared.txs[0 := AboutToRun(world, init, e).txs[0]] == AboutToRun(world, init, e).txs;
  }

  lemma HandlerCommits<B, I>(world: World<B, I>, init: State<B, I>, e: EventId, input: I)
    requires Quiet(init)
    requires var t := Target(world, e, input, init.billing);
             t.Some? ==> world.apply(e, input, init.billing[t.value]).Some?
    ensures var s5 := Next(world, AboutToRun(world, init, e), RunHandler(0, false, input));
            var s := Next(world, Next(world, s5, Finalize(0)), Commit(0));
            && s.replies == [] && Applied(s.history, e) && Done(s.log, e) && 0 in s.txs && s.txs[0] == Committed(e)
  {
    var s4 := AboutToRun(world, init, e);
    var s5 := AfterHandler(world, s4, 0, false, input);
    assert s5.txs[0].HandlerReturned? && s5.txs[0].event == e && s5.history == [] && s5.replies == [];
    HandledCommits(world, s5, e);
  }

  lemma HandledCommits<B, I>(world: World<B, I>, s: State<B, I>, e: EventId)
    requires 0 in s.txs && s.txs[0].HandlerReturned? && s.txs[0].event == e && s.history == [] && s.replies == []
    ensures var s' := Next(world, Next(world, s, Finalize(0)), Commit(0));
            && s'.replies == [] && Applied(s'.history, e) && Done(s'.log, e) && 0 in s'.txs && s'.txs[0] == Committed(e)
  {
    var s6 := AfterFinalize(s, 0);
    assert AfterCommit(s6, 0).history == [EntryOf(s6.txs[0])];
    assert AfterCommit(s6, 0).history[0].event == e;
  }

  lemma DeliveryCommits<B, I>(world: World<B, I>, init: State<B, I>, e: EventId, input: I)
    requires Quiet(init) && !Done(init.log, e)
    requires var t := Target(world, e, input, init.billing);
             t.Some? ==> world.apply(e, input, init.billing[t.value]).Some?
    ensures var s := Run(world, init, OneDelivery(e, input));
            && s.replies == [] && Applied(s.history, e) && Done(s.log, e) && 0 in s.txs && s.txs[0] == Committed(e)
  {
    var d4 := [] + [Deliver(0, e)] + [TryLock(0)] + [CheckLog(0)] + [UpsertProcessing(0)];
    DeliveryPrepares(world, init, e);
    HandlerCommits(world, init, e, input);
    RunExtends(world, init, d4, RunHandler(0, false, input));
    RunExtends(world, init, d4 + [RunHandler(0, false, input)], Finalize(0));
    RunExtends(world, init, d4 + [RunHandler(0, false, input)] + [Finalize(0)], Commit(0));
  }

  /**
   A "failed" answer promises nothing: when the cache invalidation after the commit throws, the
   caller is told failed although the event's effects are in. From any quiet state, one
   undisturbed delivery whose handler does not throw shows it.
   */
  lemma FailedAnswerMayHideSuccess<B, I>(world: World<B, I>, init: State<B, I>, e: EventId, input: I)
    requires Quiet(init) && !Done(init.log, e)
    requires var t := Target(world, e, input, init.billing);
             t.Some? ==> world.apply(e, input, init.billing[t.value]).Some?
    ensures var s := Run(world, init, OneDelivery(e, input) + [Answer(0, true)]);
            && s.replies == [(e, RepliedFailed)] && Applied(s.history, e) && Done(s.log, e)
  {
    DeliveryCommits(world, init, e, input);
    RunExtends(world, init, OneDelivery(e, input), Answer(0, true));
  }

  /** What this step answers `failed` for, if it does. */
  ghost predicate AnswersFailed<B, I>(s: State<B, I>, s': State<B, I>, e: EventId) {
    s'.replies == s.replies + [(e, RepliedFailed)]
  }

  /** The two ways a `failed` answer hides a committed success: after its own commit, or before it looked. */
  ghost predicate HidesSuccess<B, I>(s: State<B, I>, step: Step<I>, e: EventId) {
    && step.worker in s.txs && s.txs[step.worker].event == e
    && ((step.Answer? && step.invalidationThrows)
        || (step.Crash? && (s.txs[step.worker].Begun? || s.txs[step.worker].HoldsLock?) && Done(s.log, e)))
  }

  /**
   A `failed` answer leaves the event as it was, and the event's effects are in exactly when the answer
   follows its own commit and the invalidation threw, or the attempt broke off before it read the log of an
   event processed earlier. Any other `failed` answer is true.
   */
  lemma FailedAnswerExactly<B, I>(world: World<B, I>, init: State<B, I>, s: State<B, I>, step: Step<I>, e: EventId)
    requires Inv(world, init, s) && AnswersFailed(s, Next(world, s, step), e)
    ensures Done(Next(world, s, step).log, e) <==> HidesSuccess(s, step, e)
    ensures Done(Next(world, s, step).log, e) <==> Done(s.log, e)
  {
    var s', w := Next(world, s, step), step.worker;
    SilentAnswer(world, s, step);
    assert TxOk(world, s, w, s.txs[w]);
    assert s'.replies[|s.replies|] == (e, RepliedFailed);
    assert s.txs[w].event == e;
    match step
    case Answer(_, throws) => assert throws && s'.log == s.log;
    case Crash(_) => assert s'.log == s.log;
    case Commit(_) => assert s.txs[w].FinalFailed? && !Done(s'.log, e);
    case _ =>
  }

  /** A step that answers anything has a transaction, and says what that transaction's state lets it say. */
  lemma SilentAnswer<B, I>(world: World<B, I>, s: State<B, I>, step: Step<I>)
    requires Next(world, s, step).replies != s.replies
    ensures Enabled(s, step) && step.worker in s.txs
    ensures var e, s' := s.txs[step.worker].event, Next(world, s, step);
      || s'.replies == s.replies + [(e, LockUnavailable)] || s'.replies == s.replies + [(e, Replay)]
      || s'.replies == s.replies + [(e, RepliedProcessed)] || s'.replies == s.replies + [(e, RepliedFailed)]
    ensures
      || step.Commit? || step.Answer? || step.Crash?
      || (step.TryLock? && Next(world, s, step).replies[|s.replies|].1 == LockUnavailable)
      || (step.CheckLog? && Next(world, s, step).replies[|s.replies|].1 == Replay)
  {
    if Enabled(s, step) {
      match step
      case RunHandler(w, throws, input) => HandlerAnswersNothing(world, s, w, throws, input);
      case Commit(w) => CommitAnswers(s, w);
      case _ =>
    }
  }

  lemma HandlerAnswersNothing<B, I>(world: World<B, I>, s: State<B, I>, w: WorkerId, throws: bool, input: I)
    requires w in s.txs && s.txs[w].Upserted?
    ensures AfterHandler(world, s, w, throws, input).replies == s.replies
  {
  }

  lemma CommitAnswers<B, I>(s: State<B, I>, w: WorkerId)
    requires w in s.txs && (s.txs[w].FinalProcessed? || s.txs[w].FinalFailed?)
    ensures AfterCommit(s, w).replies
      == if s.txs[w].FinalProcessed? then s.replies else s.replies + [(s.txs[w].event, RepliedFailed)]
  {
  }

  /** Over whole runs: every `failed` answer was given by some step, and hides a success exactly in those two ways. */
  lemma {:induction false} FailedAnswersExactly<B, I>(world: World<B, I>, init: State<B, I>, steps: seq<Step<I>>,
                                                      i: nat)
    requires Quiet(init) && i < |Run(world, init, steps).replies|
      && Run(world, init, steps).replies[i].1 == RepliedFailed
    ensures exists n :: 0 <= n < |steps| && AnsweredAt(world, init, steps, n, i)
    decreases |steps|
  {
    if steps != [] {
      var n, s := |steps| - 1, Run(world, init, steps[..|steps| - 1]);
      RepliesGrow(world, s, steps[n]);
      EffectsAreExactlyOnce(world, init, steps[..n]);
      if i < |s.replies| {
        FailedAnswersExactly(world, init, steps[..n], i);
        var m :| 0 <= m < n && AnsweredAt(world, init, steps[..n], m, i);
        assert steps[..n][..m] == steps[..m];
        assert AnsweredAt(world, init, steps, m, i);
      } else {
        LastAnswerExactly(world, init, steps, i);
      }
    }
  }

  /** The answer the last step gave. */
  lemma LastAnswerExactly<B, I>(world: World<B, I>, init: State<B, I>, steps: seq<Step<I>>, i: nat)
    requires steps != [] && Inv(world, init, Run(world, init, steps[..|steps| - 1]))
    requires |Run(world, init, steps[..|steps| - 1]).replies| <= i < |Run(world, init, steps).replies|
    requires Run(world, init, steps).replies[i].1 == RepliedFailed
    ensures AnsweredAt(world, init, steps, |steps| - 1, i)
  {
    var n, s, e := |steps| - 1, Run(world, init, steps[..|steps| - 1]), Run(world, init, steps).replies[i].0;
    RepliesGrow(world, s, steps[n]);
    assert AnswersFailed(s, Next(world, s, steps[n]), e);
    FailedAnswerExactly(world, init, s, steps[n], e);
  }

  /** Step `n` gave answer `i`, a `failed` one, and it hid a success exactly as it may. */
  ghost predicate AnsweredAt<B, I>(world: World<B, I>, init: State<B, I>, steps: seq<Step<I>>, n: nat, i: nat)
    requires n < |steps|
  {
    var s, s' := Run(world, init, steps[..n]), Next(world, Run(world, init, steps[..n]), steps[n]);
    && i == |s.replies| && |s'.replies| == i + 1 && s'.replies[i].1 == RepliedFailed
    && (Done(s'.log, s'.replies[i].0) <==> HidesSuccess(s, steps[n], s'.replies[i].0))
  }

  lemma RepliesGrow<B, I>(world: World<B, I>, s: State<B, I>, step: Step<I>)
    ensures var replies := Next(world, s, step).replies;
      && s.replies <= replies && |replies| <= |s.replies| + 1
      && (|replies| == |s.replies| + 1 ==> replies == s.replies + [replies[|s.replies|]])
  {
    if Next(world, s, step).replies != s.replies {
      SilentAnswer(world, s, step);
    }
  }

  // ---------------------------------------------------------------- whose rows were written

  /**
   Step `n` of the run is an attempt at this event, on this input, and its lookup named `tenant` on the rows it
   saw.
   */
  ghost predicate LookedUp<B, I>(world: World<B, I>, init: State<B, I>, steps: seq<Step<I>>, n: int, e: EventId,
                                 input: I,
                                 tenant: Option<TenantId>) {
    && 0 <= n < |steps| && steps[n].RunHandler? && !steps[n].throws && steps[n].input == input
    && var s := Run(world, init, steps[..n]);
    && Enabled(s, steps[n]) && s.txs[steps[n].worker].event == e && Target(world, e, input, s.billing) == tenant
  }

  ghost predicate Targeted<B, I>(world: World<B, I>, init: State<B, I>, steps: seq<Step<I>>, e: EventId, input: I,
                                 tenant: Option<TenantId>) {
    exists n :: LookedUp(world, init, steps, n, e, input, tenant)
  }

  function Written<B>(write: Option<Write<B>>): Option<TenantId> {
    if write.Some? then Some(write.value.tenant) else None
  }

  ghost predicate TxTargeted<B, I>(world: World<B, I>, init: State<B, I>, steps: seq<Step<I>>, tx: Tx<B, I>) {
    tx.HandlerReturned? || tx.FinalProcessed? ==> Targeted(world, init, steps, tx.event, tx.input, Written(tx.write))
  }

  ghost predicate EntryTargeted<B, I>(world: World<B, I>, init: State<B, I>, steps: seq<Step<I>>, entry: Entry<I>) {
    Targeted(world, init, steps, entry.event, entry.input, entry.tenant)
  }

  /** What has been written, and what is about to be, went where an attempt of the run looked it up. */
  ghost predicate WritesAreTargeted<B, I>(world: World<B, I>, init: State<B, I>, steps: seq<Step<I>>) {
    var s := Run(world, init, steps);
    && (forall w :: w in s.txs ==> TxTargeted(world, init, steps, s.txs[w]))
    && (forall i :: 0 <= i < |s.history| ==> EntryTargeted(world, init, steps, s.history[i]))
  }

  lemma TargetedLater<B, I>(world: World<B, I>, init: State<B, I>, steps: seq<Step<I>>, m: nat, e: EventId, input: I,
                            tenant: Option<TenantId>)
    requires m <= |steps| && Targeted(world, init, steps[..m], e, input, tenant)
    ensures Targeted(world, init, steps, e, input, tenant)
  {
    var n :| LookedUp(world, init, steps[..m], n, e, input, tenant);
    assert steps[..m][..n] == steps[..n];
    assert LookedUp(world, init, steps, n, e, input, tenant);
  }

  /** A handler's write is its own lookup's. */
  lemma HandlerWrites<B, I>(world: World<B, I>, s: State<B, I>, w: WorkerId, throws: bool, input: I)
    requires w in s.txs && s.txs[w].Upserted?
    ensures var tx := AfterHandler(world, s, w, throws, input).txs[w];
      && !tx.FinalProcessed?
      && (tx.HandlerReturned? ==>
            !throws && tx.event == s.txs[w].event && tx.input == input
            && Written(tx.write) == Target(world, tx.event, input, s.billing))
  {
  }

  /** Only the handler's statement makes a write, and finalizing keeps it. */
  lemma OwnWrite<B, I>(world: World<B, I>, s: State<B, I>, step: Step<I>)
    requires step.worker in Next(world, s, step).txs && !(Enabled(s, step) && step.RunHandler?)
    ensures var tx := Next(world, s, step).txs[step.worker];
      tx.HandlerReturned? || tx.FinalProcessed? ==>
        && step.worker in s.txs && (s.txs[step.worker].HandlerReturned? || s.txs[step.worker].FinalProcessed?)
        && tx.event == s.txs[step.worker].event && tx.input == s.txs[step.worker].input
        && tx.write == s.txs[step.worker].write
  {
  }

  lemma OwnTxTargeted<B, I>(world: World<B, I>, init: State<B, I>, steps: seq<Step<I>>)
    requires steps != [] && WritesAreTargeted(world, init, steps[..|steps| - 1])
    ensures var s, w := Run(world, init, steps), steps[|steps| - 1].worker;
      w in s.txs ==> TxTargeted(world, init, steps, s.txs[w])
  {
    var m, s := |steps| - 1, Run(world, init, steps[..|steps| - 1]);
    var step, w, s' := steps[m], steps[m].worker, Next(world, s, steps[m]);
    if w in s'.txs && (s'.txs[w].HandlerReturned? || s'.txs[w].FinalProcessed?) {
      var tx := s'.txs[w];
      if Enabled(s, step) && step.RunHandler? {
        HandlerWrites(world, s, w, step.throws, step.input);
        assert LookedUp(world, init, steps, m, tx.event, tx.input, Written(tx.write));
      } else {
        OwnWrite(world, s, step);
        assert TxTargeted(world, init, steps[..m], s.txs[w]);
        TargetedLater(world, init, steps, m, tx.event, tx.input, Written(tx.write));
      }
    }
  }

  lemma LockKeepsOthers<B, I>(world: World<B, I>, s: State<B, I>, step: Step<I>, v: WorkerId)
    requires (step.TryLock? || step.CheckLog?) && v in Next(world, s, step).txs && v != step.worker
    ensures v in s.txs && Next(world, s, step).txs[v] == s.txs[v]
  {
  }

  lemma EndKeepsOthers<B, I>(world: World<B, I>, s: State<B, I>, step: Step<I>, v: WorkerId)
    requires (step.Commit? || step.Answer? || step.Crash?) && v in Next(world, s, step).txs && v != step.worker
    ensures v in s.txs && Next(world, s, step).txs[v] == s.txs[v]
  {
  }

  lemma HandlerKeepsOthers<B, I>(world: World<B, I>, s: State<B, I>, w: WorkerId, throws: bool, input: I, v: WorkerId)
    requires w in s.txs && s.txs[w].Upserted? && v in AfterHandler(world, s, w, throws, input).txs && v != w
    ensures v in s.txs && AfterHandler(world, s, w, throws, input).txs[v] == s.txs[v]
  {
  }

  lemma WorkKeepsOthers<B, I>(world: World<B, I>, s: State<B, I>, step: Step<I>, v: WorkerId)
    requires (step.Deliver? || step.UpsertProcessing? || step.Finalize?) && v in Next(world, s, step).txs
      && v != step.worker
    ensures v in s.txs && Next(world, s, step).txs[v] == s.txs[v]
  {
  }

  lemma OtherTxKept<B, I>(world: World<B, I>, s: State<B, I>, step: Step<I>, v: WorkerId)
    requires v in Next(world, s, step).txs && v != step.worker
    ensures v in s.txs && Next(world, s, step).txs[v] == s.txs[v]
  {
    match step
    case TryLock(_) => LockKeepsOthers(world, s, step, v);
    case CheckLog(_) => LockKeepsOthers(world, s, step, v);
    case Commit(_) => EndKeepsOthers(world, s, step, v);
    case Answer(_, _) => EndKeepsOthers(world, s, step, v);
    case Crash(_) => EndKeepsOthers(world, s, step, v);
    case RunHandler(w, throws, input) => if Enabled(s, step) { HandlerKeepsOthers(world, s, w, throws, input, v); }
    case _ => WorkKeepsOthers(world, s, step, v);
  }

  lemma RowsKept<B, I>(world: World<B, I>, s: State<B, I>, step: Step<I>)
    requires !(Enabled(s, step) && step.Commit? && s.txs[step.worker].FinalProcessed?)
    ensures Next(world, s, step).billing == s.billing && Next(world, s, step).history == s.history
  {
    if Enabled(s, step) {
      match step
      case RunHandler(w, throws, input) => HandlerKeepsRows(world, s, w, throws, input);
      case Crash(w) => CrashKeepsRows(s, w);
      case Commit(w) => FailureKeepsRows(s, w);
      case _ =>
    }
  }

  lemma HandlerKeepsRows<B, I>(world: World<B, I>, s: State<B, I>, w: WorkerId, throws: bool, input: I)
    requires w in s.txs && s.txs[w].Upserted?
    ensures var s' := AfterHandler(world, s, w, throws, input); s'.billing == s.billing && s'.history == s.history
  {
  }

  lemma CrashKeepsRows<B, I>(s: State<B, I>, w: WorkerId)
    requires w in s.txs
    ensures AfterCrash(s, w).billing == s.billing && AfterCrash(s, w).history == s.history
  {
  }

  lemma FailureKeepsRows<B, I>(s: State<B, I>, w: WorkerId)
    requires w in s.txs && s.txs[w].FinalFailed?
    ensures AfterCommit(s, w).billing == s.billing && AfterCommit(s, w).history == s.history
  {
  }

  lemma HistoryTargeted<B, I>(world: World<B, I>, init: State<B, I>, steps: seq<Step<I>>, i: nat)
    requires steps != [] && WritesAreTargeted(world, init, steps[..|steps| - 1])
    requires i < |Run(world, init, steps).history|
    ensures EntryTargeted(world, init, steps, Run(world, init, steps).history[i])
  {
    var m, s := |steps| - 1, Run(world, init, steps[..|steps| - 1]);
    var step, w, entry := steps[m], steps[m].worker, Run(world, init, steps).history[i];
    if i < |s.history| {
      if !(Enabled(s, step) && step.Commit? && s.txs[w].FinalProcessed?) { RowsKept(world, s, step); }
      assert entry == s.history[i] && EntryTargeted(world, init, steps[..m], s.history[i]);
    } else {
      if !(Enabled(s, step) && step.Commit? && s.txs[w].FinalProcessed?) { RowsKept(world, s, step); }
      assert entry == EntryOf(s.txs[w]) && TxTargeted(world, init, steps[..m], s.txs[w]);
    }
    TargetedLater(world, init, steps, m, entry.event, entry.input, entry.tenant);
  }

  /**
   Over any run, each committed application was an attempt of that run: it wrote exactly the rows its lookup
   named on the committed rows of the moment it ran, and none if it named none.
   */
  lemma {:induction false} WritesGoWhereLookupPoints<B, I>(world: World<B, I>, init: State<B, I>, steps: seq<Step<I>>)
    requires Quiet(init)
    ensures WritesAreTargeted(world, init, steps)
    decreases |steps|
  {
    if steps != [] {
      var m, s := |steps| - 1, Run(world, init, steps);
      WritesGoWhereLookupPoints(world, init, steps[..m]);
      forall v | v in s.txs ensures TxTargeted(world, init, steps, s.txs[v]) {
        var before := Run(world, init, steps[..m]);
        if v == steps[m].worker {
          OwnTxTargeted(world, init, steps);
        } else {
          OtherTxKept(world, before, steps[m], v);
          if s.txs[v].HandlerReturned? || s.txs[v].FinalProcessed? {
            assert TxTargeted(world, init, steps[..m], before.txs[v]);
            TargetedLater(world, init, steps, m, s.txs[v].event, s.txs[v].input, Written(s.txs[v].write));
          }
        }
      }
      forall i | 0 <= i < |s.history| ensures EntryTargeted(world, init, steps, s.history[i]) {
        HistoryTargeted(world, init, steps, i);
      }
    }
  }

  /** No run adds or removes a tenant. */
  lemma {:induction false} TenantsStay<B, I>(world: World<B, I>, init: State<B, I>, steps: seq<Step<I>>)
    requires Quiet(init)
    ensures Run(world, init, steps).billing.Keys == init.billing.Keys
    decreases |steps|
  {
    if steps != [] {
      var m, s := |steps| - 1, Run(world, init, steps[..|steps| - 1]);
      var step := steps[m];
      TenantsStay(world, init, steps[..m]);
      if Enabled(s, step) && step.Commit? && s.txs[step.worker].FinalProcessed? {
        EffectsAreExactlyOnce(world, init, steps[..m]);
        CommitKeepsTenants(world, s, step.worker);
      } else {
        RowsKept(world, s, step);
      }
    }
  }

  lemma CommitKeepsTenants<B, I>(world: World<B, I>, s: State<B, I>, w: WorkerId)
    requires w in s.txs && s.txs[w].FinalProcessed? && TxOk(world, s, w, s.txs[w])
    ensures AfterCommit(s, w).billing.Keys == s.billing.Keys
  {
  }

  // ---------------------------------------------------------------- token credit

  /** Tokens the history credited to one tenant. */
  function Credited<I>(history: seq<Entry<I>>, tokens: (EventId, I) -> int, t: TenantId): int {
    if history == [] then 0
    else
      var last := history[|history| - 1];
      Credited(history[..|history| - 1], tokens, t) + if last.tenant == Some(t) then tokens(last.event, last.input)
        else 0
  }

  lemma {:induction false} SerialCredit<B(!new), I(!new)>(world: World<B, I>, b: map<TenantId, B>,
                                          history: seq<Entry<I>>, balance: B -> int, tokens: (EventId, I) -> int,
                                            t: TenantId)
    requires forall e, i, v :: world.apply(e, i, v).Some? ==>
      balance(world.apply(e, i, v).value) == balance(v) + tokens(e, i)
    requires t in b && Succeeds(world, b, history)
    ensures var after := Serial(world, b, history);
      t in after && balance(after[t]) == balance(b[t]) + Credited(history, tokens, t)
    decreases |history|
  {
    if history != [] {
      SerialCredit(world, b, history[..|history| - 1], balance, tokens, t);
    }
  }

  /**
   Token credit: when `tokens(e)` is what a top-up adds (zero for every other event), a tenant's
   balance is its opening balance plus one credit per distinct processed event of that tenant.
   */
  lemma CreditIsCountedOnce<B(!new), I(!new)>(world: World<B, I>, init: State<B, I>, steps: seq<Step<I>>,
                              balance: B -> int, tokens: (EventId, I) -> int, t: TenantId)
    requires Quiet(init) && t in init.billing
    requires forall e, i, v :: world.apply(e, i, v).Some? ==>
      balance(world.apply(e, i, v).value) == balance(v) + tokens(e, i)
    ensures var s := Run(world, init, steps);
            && t in s.billing && balance(s.billing[t]) == balance(init.billing[t]) + Credited(s.history, tokens, t)
            && Distinct(s.history)
            && (forall e :: Applied(s.history, e) <==> Done(s.log, e) && !Done(init.log, e))
  {
    EffectsAreExactlyOnce(world, init, steps);
    SerialCredit(world, init.billing, Run(world, init, steps).history, balance, tokens, t);
  }
}
