/**
 What the protocol gets done: no lock outlives its transaction, and a delivery that finds its locks free runs
 to its answer, whatever was delivered, failed or crashed before.
 */
module WebhookProgress {
  import opened Wrappers
  import opened WebhookLedger

  // ---------------------------------------------------------------- no lock is leaked

  /** Every lock is held by an open transaction that took it and has not ended. */
  ghost predicate NoLeaks<B, I>(world: World<B, I>, s: State<B, I>) {
    && (forall k :: k in s.advisory ==>
          var w := s.advisory[k];
          w in s.txs && !s.txs[w].Begun? && !s.txs[w].Committed? && world.lockKey(s.txs[w].event) == k)
    && (forall t :: t in s.rowLocks ==> s.rowLocks[t] in s.txs && Wrote(s.txs[s.rowLocks[t]], t))
  }

  /** The transaction has a pending write on the tenant's rows. */
  predicate Wrote<B, I>(tx: Tx<B, I>, t: TenantId) {
    (tx.HandlerReturned? || tx.FinalProcessed?) && tx.write.Some? && tx.write.value.tenant == t
  }

  lemma HandlerLeaksNothing<B, I>(world: World<B, I>, s: State<B, I>, w: WorkerId, throws: bool, input: I)
    requires NoLeaks(world, s) && w in s.txs && s.txs[w].Upserted?
    ensures NoLeaks(world, AfterHandler(world, s, w, throws, input))
  {
  }

  lemma CommitLeaksNothing<B, I>(world: World<B, I>, s: State<B, I>, w: WorkerId)
    requires NoLeaks(world, s) && w in s.txs && (s.txs[w].FinalProcessed? || s.txs[w].FinalFailed?)
    ensures NoLeaks(world, AfterCommit(s, w))
  {
  }

  lemma RollbackLeaksNothing<B, I>(world: World<B, I>, s: State<B, I>, w: WorkerId)
    requires NoLeaks(world, s)
    ensures NoLeaks(world, Rollback(s, w))
  {
  }

  lemma LockLeaksNothing<B, I>(world: World<B, I>, s: State<B, I>, w: WorkerId)
    requires NoLeaks(world, s) && w in s.txs && s.txs[w].Begun?
    ensures NoLeaks(world, AfterTryLock(world, s, w))
  {
    var key, after := world.lockKey(s.txs[w].event), AfterTryLock(world, s, w);
    if key in s.advisory {
      RollbackLeaksNothing(world, s, w);
      assert after.advisory == Rollback(s, w).advisory && after.rowLocks == Rollback(s, w).rowLocks
        && after.txs == Rollback(s, w).txs;
    } else {
      assert forall k :: k in s.advisory ==> s.advisory[k] != w;
      assert forall t :: t in s.rowLocks ==> s.rowLocks[t] != w;
    }
  }

  lemma CheckLeaksNothing<B, I>(world: World<B, I>, s: State<B, I>, w: WorkerId)
    requires NoLeaks(world, s) && w in s.txs && s.txs[w].HoldsLock?
    ensures NoLeaks(world, AfterCheck(s, w))
  {
    var after := AfterCheck(s, w);
    if Done(s.log, s.txs[w].event) {
      RollbackLeaksNothing(world, s, w);
      assert after.advisory == Rollback(s, w).advisory && after.rowLocks == Rollback(s, w).rowLocks
        && after.txs == Rollback(s, w).txs;
    }
  }

  lemma MiddleLeaksNothing<B, I>(world: World<B, I>, s: State<B, I>, w: WorkerId)
    requires NoLeaks(world, s) && w in s.txs
    ensures s.txs[w].Cleared? ==> NoLeaks(world, AfterUpsert(s, w))
    ensures s.txs[w].HandlerReturned? || s.txs[w].HandlerThrew? ==> NoLeaks(world, AfterFinalize(s, w))
  {
  }

  lemma EndLeaksNothing<B, I>(world: World<B, I>, s: State<B, I>, w: WorkerId, invalidationThrows: bool)
    requires NoLeaks(world, s) && w in s.txs
    ensures s.txs[w].Committed? ==> NoLeaks(world, AfterAnswer(s, w, invalidationThrows))
    ensures NoLeaks(world, AfterCrash(s, w))
  {
    RollbackLeaksNothing(world, s, w);
  }

  lemma StepLeaksNothing<B, I>(world: World<B, I>, s: State<B, I>, step: Step<I>)
    requires NoLeaks(world, s)
    ensures NoLeaks(world, Next(world, s, step))
  {
    if Enabled(s, step) {
      match step
      case Deliver(_, _) =>
      case TryLock(w) => LockLeaksNothing(world, s, w);
      case CheckLog(w) => CheckLeaksNothing(world, s, w);
      case UpsertProcessing(w) => MiddleLeaksNothing(world, s, w);
      case RunHandler(w, throws, input) => HandlerLeaksNothing(world, s, w, throws, input);
      case Finalize(w) => MiddleLeaksNothing(world, s, w);
      case Commit(w) => CommitLeaksNothing(world, s, w);
      case Answer(w, invalidationThrows) => EndLeaksNothing(world, s, w, invalidationThrows);
      case Crash(w) => EndLeaksNothing(world, s, w, false);
    }
  }

  lemma NothingInFlight<B, I>(world: World<B, I>, s: State<B, I>)
    requires NoLeaks(world, s) && s.txs == map[]
    ensures s.advisory == map[] && s.rowLocks == map[]
  {
    assert forall k :: k in s.advisory ==> s.advisory[k] in s.txs;
    assert forall t :: t in s.rowLocks ==> s.rowLocks[t] in s.txs;
  }

  /** In every interleaving every lock is held by an open transaction; with nothing in flight none is held. */
  lemma {:induction false} RunsLeakNothing<B, I>(world: World<B, I>, init: State<B, I>, steps: seq<Step<I>>)
    requires Quiet(init)
    ensures NoLeaks(world, Run(world, init, steps))
    ensures var s := Run(world, init, steps); s.txs == map[] ==> s.advisory == map[] && s.rowLocks == map[]
  {
    if steps != [] {
      RunsLeakNothing(world, init, steps[..|steps| - 1]);
      StepLeaksNothing(world, Run(world, init, steps[..|steps| - 1]), steps[|steps| - 1]);
    }
    if Run(world, init, steps).txs == map[] { NothingInFlight(world, Run(world, init, steps)); }
  }

  // ---------------------------------------------------------------- a delivery runs to its answer

  /** One delivery by `w`, undisturbed, to its answer. */
  function Delivery<I>(w: WorkerId, e: EventId, throws: bool, input: I): seq<Step<I>> {
    [] + [Deliver(w, e)] + [TryLock(w)] + [CheckLog(w)] + [UpsertProcessing(w)] + [RunHandler(w, throws, input)]
      + [Finalize(w)] + [Commit(w)] + [Answer(w, false)]
  }

  function Attempt<B, I>(s: State<B, I>, e: EventId): nat {
    if e in s.log then s.log[e].attempts + 1 else 1
  }

  /** With the advisory key free and the event not processed, the attempt gets as far as its handler. */
  function Handling<B, I>(world: World<B, I>, s: State<B, I>, w: WorkerId, e: EventId): State<B, I> {
    s.(txs := s.txs[w := Upserted(e, LogRow(Processing, Attempt(s, e)))],
       advisory := s.advisory[world.lockKey(e) := w])
  }

  function Locked<B, I>(world: World<B, I>, s: State<B, I>, w: WorkerId, tx: Tx<B, I>): State<B, I> {
    s.(txs := s.txs[w := tx], advisory := s.advisory[world.lockKey(tx.event) := w])
  }

  lemma GetsTheLock<B, I>(world: World<B, I>, s: State<B, I>, w: WorkerId, e: EventId)
    requires w !in s.txs && world.lockKey(e) !in s.advisory
    ensures Run(world, s, [] + [Deliver(w, e)] + [TryLock(w)]) == Locked(world, s, w, HoldsLock(e))
  {
    RunExtends(world, s, [], Deliver(w, e));
    RunExtends(world, s, [] + [Deliver(w, e)], TryLock(w));
    assert s.txs[w := Begun(e)][w := HoldsLock(e)] == s.txs[w := HoldsLock(e)];
  }

  lemma LockedMoves<B, I>(world: World<B, I>, s: State<B, I>, w: WorkerId, one: Tx<B, I>, two: Tx<B, I>)
    requires one.event == two.event
    ensures Advance(Locked(world, s, w, one), w, two) == Locked(world, s, w, two)
  {
    assert s.txs[w := one][w := two] == s.txs[w := two];
  }

  lemma GetsToHandler<B, I>(world: World<B, I>, s: State<B, I>, w: WorkerId, e: EventId)
    requires w !in s.txs && world.lockKey(e) !in s.advisory && !(e in s.log && s.log[e].status == Processed)
    ensures Run(world, s, [] + [Deliver(w, e)] + [TryLock(w)] + [CheckLog(w)] + [UpsertProcessing(w)])
      == Handling(world, s, w, e)
  {
    var upserted := Upserted(e, LogRow(Processing, Attempt(s, e)));
    GetsTheLock(world, s, w, e);
    RunExtends(world, s, [] + [Deliver(w, e)] + [TryLock(w)], CheckLog(w));
    RunExtends(world, s, [] + [Deliver(w, e)] + [TryLock(w)] + [CheckLog(w)], UpsertProcessing(w));
    LockedMoves(world, s, w, HoldsLock(e), Cleared(e));
    LockedMoves(world, s, w, Cleared(e), upserted);
    hide Run;
  }

  /** What a delivery leaves: its log row, its write if it succeeded, its answer; no lock and no transaction. */
  function Delivered<B, I>(s: State<B, I>, e: EventId, input: I, write: Option<Write<B>>): State<B, I> {
    s.(log := s.log[e := LogRow(Processed, Attempt(s, e))],
       billing := if write.Some? then s.billing[write.value.tenant := write.value.value] else s.billing,
       history := s.history + [Entry(e, if write.Some? then Some(write.value.tenant) else None, input)],
       replies := s.replies + [(e, RepliedProcessed)])
  }

  function FailedOnce<B, I>(s: State<B, I>, e: EventId): State<B, I> {
    s.(log := s.log[e := LogRow(Failed, Attempt(s, e))], replies := s.replies + [(e, RepliedFailed)])
  }

  /** `held` is `s` with one worker's locks on top, which its end gives back. */
  lemma LocksComeBack<B, I>(world: World<B, I>, s: State<B, I>, held: State<B, I>, w: WorkerId, key: int)
    requires NoLeaks(world, s) && w !in s.txs && key !in s.advisory && held.advisory == s.advisory[key := w]
    requires forall t :: t in s.rowLocks ==> t in held.rowLocks && held.rowLocks[t] == s.rowLocks[t]
    requires forall t :: t in held.rowLocks && t !in s.rowLocks ==> held.rowLocks[t] == w
    ensures Release(held, w).advisory == s.advisory && Release(held, w).rowLocks == s.rowLocks
  {
    var freed := Release(held, w);
    assert forall k :: k in s.advisory ==> s.advisory[k] in s.txs;
    assert forall t :: t in s.rowLocks ==> s.rowLocks[t] in s.txs;
    assert forall k :: k in freed.advisory <==> k in s.advisory;
    assert forall t :: t in freed.rowLocks <==> t in s.rowLocks;
  }

  lemma CommitsAndAnswers<B, I>(world: World<B, I>, s: State<B, I>, w: WorkerId, e: EventId, input: I,
                                write: Option<Write<B>>, tenants: map<TenantId, WorkerId>)
    requires NoLeaks(world, s) && w !in s.txs && world.lockKey(e) !in s.advisory
    requires tenants == if write.Some? then s.rowLocks[write.value.tenant := w] else s.rowLocks
    requires write.Some? ==> write.value.tenant !in s.rowLocks
    ensures var returned := s.(txs := s.txs[w := HandlerReturned(e, LogRow(Processing, Attempt(s, e)), input, write)],
                               advisory := s.advisory[world.lockKey(e) := w], rowLocks := tenants);
      Next(world, Next(world, Next(world, returned, Finalize(w)), Commit(w)), Answer(w, false))
        == Delivered(s, e, input, write)
  {
    var row := LogRow(Processing, Attempt(s, e));
    var tx := FinalProcessed(e, LogRow(Processed, Attempt(s, e)), input, write);
    var final := Locked(world, s, w, tx).(rowLocks := tenants);
    assert s.txs[w := HandlerReturned(e, row, input, write)][w := tx] == final.txs;
    FinalCommits(world, s, w, tx, tenants);
  }

  lemma FinalCommits<B, I>(world: World<B, I>, s: State<B, I>, w: WorkerId, tx: Tx<B, I>,
                           tenants: map<TenantId, WorkerId>)
    requires NoLeaks(world, s) && w !in s.txs && tx.FinalProcessed? && world.lockKey(tx.event) !in s.advisory
    requires tenants == if tx.write.Some? then s.rowLocks[tx.write.value.tenant := w] else s.rowLocks
    requires tx.write.Some? ==> tx.write.value.tenant !in s.rowLocks
    requires tx.row == LogRow(Processed, Attempt(s, tx.event))
    ensures Next(world, Next(world, Locked(world, s, w, tx).(rowLocks := tenants), Commit(w)), Answer(w, false))
      == Delivered(s, tx.event, tx.input, tx.write)
  {
    var final := Locked(world, s, w, tx).(rowLocks := tenants);
    LocksComeBack(world, s, final, w, world.lockKey(tx.event));
    assert final.txs[w := Committed(tx.event)] - {w} == s.txs;
  }

  lemma FailsAndAnswers<B, I>(world: World<B, I>, s: State<B, I>, w: WorkerId, e: EventId)
    requires NoLeaks(world, s) && w !in s.txs && world.lockKey(e) !in s.advisory
    ensures var threw := s.(txs := s.txs[w := HandlerThrew(e, LogRow(Processing, Attempt(s, e)))],
                            advisory := s.advisory[world.lockKey(e) := w]);
      Next(world, Next(world, Next(world, threw, Finalize(w)), Commit(w)), Answer(w, false)) == FailedOnce(s, e)
  {
    var final := s.(txs := s.txs[w := FinalFailed(e, LogRow(Failed, Attempt(s, e)))],
                    advisory := s.advisory[world.lockKey(e) := w]);
    assert s.txs[w := HandlerThrew(e, LogRow(Processing, Attempt(s, e)))]
      [w := FinalFailed(e, LogRow(Failed, Attempt(s, e)))] == final.txs;
    LocksComeBack(world, s, final, w, world.lockKey(e));
    assert final.txs - {w} == s.txs;
  }

  /** The outcome of the handler on the committed rows: the row it writes, nothing to write, or a throw. */
  datatype Outcome<B> = Writes(w: Write<B>) | NoRow | Throws

  function OutcomeOf<B, I>(world: World<B, I>, s: State<B, I>, e: EventId, throws: bool, input: I): Outcome<B> {
    var found := world.resolve(e, input, s.billing);
    if throws then Throws
    else if found.None? || found.value !in s.billing then NoRow
    else
      var b := world.apply(e, input, s.billing[found.value]);
      if b.None? then Throws else Writes(Write(found.value, b.value))
  }

  lemma Handles<B, I>(world: World<B, I>, s: State<B, I>, w: WorkerId, e: EventId, throws: bool, input: I)
    requires w !in s.txs
    requires var found := world.resolve(e, input, s.billing); found.Some? ==> found.value !in s.rowLocks
    ensures var row, o := LogRow(Processing, Attempt(s, e)), OutcomeOf(world, s, e, throws, input);
      var handled := Next(world, Handling(world, s, w, e), RunHandler(w, throws, input));
      handled == if o.Throws? then Handling(world, s, w, e).(txs := s.txs[w := HandlerThrew(e, row)])
        else if o.NoRow? then Handling(world, s, w, e).(txs := s.txs[w := HandlerReturned(e, row, input, None)])
        else Handling(world, s, w, e).(txs := s.txs[w := HandlerReturned(e, row, input, Some(o.w))],
                                       rowLocks := s.rowLocks[o.w.tenant := w])
  {
    var row := LogRow(Processing, Attempt(s, e));
    var o := OutcomeOf(world, s, e, throws, input);
    var tx := if o.Throws? then HandlerThrew(e, row)
      else HandlerReturned(e, row, input, if o.NoRow? then None else Some(o.w));
    assert s.txs[w := Upserted(e, row)][w := tx] == s.txs[w := tx];
  }

  /**
   In any state in which no lock is leaked, a worker that delivers an unprocessed event whose advisory key and row
   are free commits what the handler does to the committed rows, counts the attempt, and answers processed;
   or, if the handler throws, marks the event failed and answers so. Either way every lock is free again.
   */
  lemma DeliveryRunsToItsAnswer<B, I>(world: World<B, I>, s: State<B, I>, w: WorkerId, e: EventId, throws: bool,
                                      input: I)
    requires NoLeaks(world, s) && w !in s.txs && world.lockKey(e) !in s.advisory
    requires !(e in s.log && s.log[e].status == Processed)
    requires var found := world.resolve(e, input, s.billing); found.Some? ==> found.value !in s.rowLocks
    ensures Run(world, s, Delivery(w, e, throws, input)) ==
      match OutcomeOf(world, s, e, throws, input)
      case Writes(write) => Delivered(s, e, input, Some(write))
      case NoRow => Delivered(s, e, input, None)
      case Throws => FailedOnce(s, e)
  {
    var d4 := [] + [Deliver(w, e)] + [TryLock(w)] + [CheckLog(w)] + [UpsertProcessing(w)];
    var handler := RunHandler(w, throws, input);
    GetsToHandler(world, s, w, e);
    Handles(world, s, w, e, throws, input);
    RunExtends(world, s, d4, handler);
    RunExtends(world, s, d4 + [handler], Finalize(w));
    RunExtends(world, s, d4 + [handler] + [Finalize(w)], Commit(w));
    RunExtends(world, s, d4 + [handler] + [Finalize(w)] + [Commit(w)], Answer(w, false));
    hide Next, Run, NoLeaks;
    match OutcomeOf(world, s, e, throws, input)
    case Writes(write) => CommitsAndAnswers(world, s, w, e, input, Some(write), s.rowLocks[write.tenant := w]);
    case NoRow => CommitsAndAnswers(world, s, w, e, input, None, s.rowLocks);
    case Throws => FailsAndAnswers(world, s, w, e);
  }

  /** So after any run, once nothing is in flight, an unprocessed event goes through at its next delivery. */
  lemma RedeliveryGoesThrough<B, I>(world: World<B, I>, init: State<B, I>, steps: seq<Step<I>>, w: WorkerId, e: EventId,
                                    input: I)
    requires Quiet(init)
    requires Run(world, init, steps).txs == map[] && !Done(Run(world, init, steps).log, e)
    requires !OutcomeOf(world, Run(world, init, steps), e, false, input).Throws?
    ensures var s := Run(world, init, steps); var after := Run(world, s, Delivery(w, e, false, input));
      && e in after.log && after.log[e] == LogRow(Processed, Attempt(s, e))
      && after.replies == s.replies + [(e, RepliedProcessed)] && after.txs == map[]
      && after.advisory == map[] && after.rowLocks == map[]
  {
    RunsLeakNothing(world, init, steps);
    DeliveryRunsToItsAnswer(world, Run(world, init, steps), w, e, false, input);
  }

  /** A delivery that finds its key taken backs off and changes nothing. */
  lemma TakenKeyBacksOff<B, I>(world: World<B, I>, s: State<B, I>, w: WorkerId, e: EventId)
    requires NoLeaks(world, s) && w !in s.txs && world.lockKey(e) in s.advisory
    ensures Run(world, s, [] + [Deliver(w, e)] + [TryLock(w)]) == s.(replies := s.replies + [(e, LockUnavailable)])
  {
    RunExtends(world, s, [], Deliver(w, e));
    RunExtends(world, s, [] + [Deliver(w, e)], TryLock(w));
    var begun := s.(txs := s.txs[w := Begun(e)]);
    assert begun.txs - {w} == s.txs;
    assert forall k :: k in s.advisory ==> s.advisory[k] in s.txs;
    assert forall t :: t in s.rowLocks ==> s.rowLocks[t] in s.txs;
    assert Release(begun, w).advisory == s.advisory && Release(begun, w).rowLocks == s.rowLocks;
  }

  /** A delivery of a processed event answers replay and changes nothing. */
  lemma ProcessedEventReplays<B, I>(world: World<B, I>, s: State<B, I>, w: WorkerId, e: EventId)
    requires NoLeaks(world, s) && w !in s.txs && world.lockKey(e) !in s.advisory
    requires e in s.log && s.log[e].status == Processed
    ensures Run(world, s, [] + [Deliver(w, e)] + [TryLock(w)] + [CheckLog(w)])
      == s.(replies := s.replies + [(e, Replay)])
  {
    GetsTheLock(world, s, w, e);
    RunExtends(world, s, [] + [Deliver(w, e)] + [TryLock(w)], CheckLog(w));
    var locked := Locked(world, s, w, HoldsLock(e));
    LocksComeBack(world, s, locked, w, world.lockKey(e));
    assert locked.txs - {w} == s.txs;
    hide Run, NoLeaks;
  }

  /** A worker that crashes leaves its locks free and no transaction; what is committed does not move. */
  lemma CrashLeavesNothingBehind<B, I>(world: World<B, I>, s: State<B, I>, w: WorkerId)
    requires NoLeaks(world, s) && w in s.txs
    ensures var after := Next(world, s, Crash(w));
      && after.txs == s.txs - {w} && after.log == s.log && after.billing == s.billing && after.history == s.history
      && (forall k :: k in after.advisory <==> k in s.advisory && s.advisory[k] != w)
      && (forall t :: t in after.rowLocks <==> t in s.rowLocks && s.rowLocks[t] != w)
      && after.replies == s.replies + if s.txs[w].Committed? then [] else [(s.txs[w].event, RepliedFailed)]
  {
  }
}
