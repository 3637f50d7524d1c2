/**
 The count gate under concurrency: transactions lock the tenant row, read its limit, count, and insert
 before they commit. Any number of them interleave, roll back at any point, count several capabilities,
 insert several rows, and run beside deletions and limit changes.
 */
module Capacity {
  import opened Wrappers

  type TenantId = string
  type TxId = nat
  datatype Capability = Agents | Bots | Sessions
  datatype Gate = Gate(tenant: TenantId, capability: Capability)

  /** An open transaction that holds its tenant's row lock: what it inserted, and the check it last passed. */
  datatype Tx = Tx(tenant: TenantId, inserted: map<Capability, nat>, passed: Option<Capability>)

  /** `limits` has None for unlimited; a gate with no count yet has none committed. */
  datatype State = State(limits: map<Gate, Option<nat>>, committed: map<Gate, nat>, open: map<TxId, Tx>)

  datatype Step =
    | LockTenant(tx: TxId, tenant: TenantId)
    | CheckCount(tx: TxId, capability: Capability)
    | InsertRow(tx: TxId)
    | Commit(tx: TxId)
    | Rollback(tx: TxId)
    | DeleteRow(gate: Gate)
    | ChangeLimit(gate: Gate, limit: Option<nat>)

  function Count(s: State, g: Gate): nat {
    if g in s.committed then s.committed[g] else 0
  }

  function Inserted(t: Tx, c: Capability): nat {
    if c in t.inserted then t.inserted[c] else 0
  }

  predicate Locked(s: State, tenant: TenantId) {
    exists x :: x in s.open && s.open[x].tenant == tenant
  }

  predicate Within(count: nat, limit: Option<nat>) {
    limit.Some? ==> count <= limit.value
  }

  /** A step is blocked while another transaction holds the row lock it needs. */
  predicate Enabled(s: State, step: Step) {
    match step
    case LockTenant(x, tenant) => x !in s.open && !Locked(s, tenant) && forall c :: Gate(tenant, c) in s.limits
    case CheckCount(x, c) => x in s.open && Gate(s.open[x].tenant, c) in s.limits
    case InsertRow(x) => x in s.open && s.open[x].passed.Some?
    case Commit(x) => x in s.open
    case Rollback(x) => x in s.open
    case DeleteRow(g) => Count(s, g) > 0
    case ChangeLimit(g, _) => g in s.limits && !Locked(s, g.tenant)
  }

  /** The count a transaction reads: what is committed, and its own rows. */
  function Visible(s: State, x: TxId, c: Capability): nat
    requires x in s.open
  {
    Count(s, Gate(s.open[x].tenant, c)) + Inserted(s.open[x], c)
  }

  /** At or over the cap the gate throws, and the caller's transaction rolls back. */
  function Next(s: State, step: Step): State
    requires Enabled(s, step)
  {
    match step
    case LockTenant(x, tenant) => s.(open := s.open[x := Tx(tenant, map[], None)])
    case CheckCount(x, c) =>
      var limit := s.limits[Gate(s.open[x].tenant, c)];
      if limit.Some? && Visible(s, x, c) >= limit.value then s.(open := s.open - {x})
      else s.(open := s.open[x := s.open[x].(passed := Some(c))])
    case InsertRow(x) =>
      var t := s.open[x];
      var raised := t.inserted[t.passed.value := Inserted(t, t.passed.value) + 1];
      s.(open := s.open[x := t.(inserted := raised, passed := None)])
    case Commit(x) =>
      var t := s.open[x];
      s.(open := s.open - {x},
         committed := map g | g in s.committed.Keys + OwnGates(t) ::
           Count(s, g) + if g.tenant == t.tenant then Inserted(t, g.capability) else 0)
    case Rollback(x) => s.(open := s.open - {x})
    case DeleteRow(g) => s.(committed := s.committed[g := Count(s, g) - 1])
    case ChangeLimit(g, limit) => s.(limits := s.limits[g := limit])
  }

  function OwnGates(t: Tx): set<Gate> {
    set c | c in t.inserted :: Gate(t.tenant, c)
  }

  /** One lock holder per tenant; whatever a transaction inserted, or may insert next, fits under the limit it read. */
  ghost predicate Inv(s: State) {
    && (forall x, y :: x in s.open && y in s.open && x != y ==> s.open[x].tenant != s.open[y].tenant)
    && (forall x, c :: x in s.open ==> Gate(s.open[x].tenant, c) in s.limits && Fits(s, x, c))
  }

  predicate Fits(s: State, x: TxId, c: Capability)
    requires x in s.open && Gate(s.open[x].tenant, c) in s.limits
  {
    var own := Inserted(s.open[x], c) + if s.open[x].passed == Some(c) then 1 else 0;
    own > 0 ==> Within(Count(s, Gate(s.open[x].tenant, c)) + own, s.limits[Gate(s.open[x].tenant, c)])
  }

  lemma StepKeepsInv(s: State, step: Step)
    requires Inv(s) && Enabled(s, step)
    ensures Inv(Next(s, step))
  {
    if step.Commit? {
      CommitKeepsInv(s, step.tx);
    } else {
      var s' := Next(s, step);
      forall x, c | x in s'.open ensures Gate(s'.open[x].tenant, c) in s'.limits && Fits(s', x, c) {
        if x in s.open {
          assert Gate(s.open[x].tenant, c) in s.limits && Fits(s, x, c);
        }
      }
    }
  }

  lemma CommitKeepsInv(s: State, x: TxId)
    requires Inv(s) && x in s.open
    ensures Inv(Next(s, Commit(x)))
  {
    var s' := Next(s, Commit(x));
    CommitCounts(s, x);
    forall y, c | y in s'.open ensures Gate(s'.open[y].tenant, c) in s'.limits && Fits(s', y, c) {
      assert Gate(s.open[y].tenant, c) in s.limits && Fits(s, y, c);
      assert Count(s', Gate(s.open[y].tenant, c)) == Count(s, Gate(s.open[y].tenant, c));
    }
  }

  /** What a commit adds, gate by gate. */
  lemma CommitCounts(s: State, x: TxId)
    requires x in s.open
    ensures forall g ::
      Count(Next(s, Commit(x)), g) == Count(s, g) + if g.tenant == s.open[x].tenant
        then Inserted(s.open[x], g.capability) else 0
  {
    var t, s' := s.open[x], Next(s, Commit(x));
    forall g ensures Count(s', g) == Count(s, g) + if g.tenant == t.tenant then Inserted(t, g.capability) else 0 {
      if g.tenant == t.tenant && g.capability in t.inserted {
        assert g in OwnGates(t);
      }
    }
  }

  /** Every count a commit raises is within the limit in force at that commit, even after the limit was lowered. */
  lemma RaisedCountsFit(s: State, x: TxId, g: Gate)
    requires Inv(s) && x in s.open
    requires Count(Next(s, Commit(x)), g) > Count(s, g)
    ensures g in s.limits && Within(Count(Next(s, Commit(x)), g), s.limits[g])
  {
    CommitCounts(s, x);
    assert g == Gate(s.open[x].tenant, g.capability);
    assert Fits(s, x, g.capability);
  }

  /** Only a commit raises a count. */
  lemma OnlyCommitsRaise(s: State, step: Step, g: Gate)
    requires Enabled(s, step) && !step.Commit?
    ensures Count(Next(s, step), g) <= Count(s, g)
  {
  }

  /** One step takes a count over its limit exactly when it sets a limit below the count. */
  lemma OnlyLoweringExceeds(s: State, step: Step, g: Gate)
    requires Inv(s) && Enabled(s, step) && g in s.limits && Within(Count(s, g), s.limits[g])
    ensures g in Next(s, step).limits
    ensures Within(Count(Next(s, step), g), Next(s, step).limits[g])
      <==> !(step.ChangeLimit? && step.gate == g && !Within(Count(s, g), step.limit))
  {
    if !step.Commit? {
      OnlyCommitsRaise(s, step, g);
    } else if Count(Next(s, step), g) > Count(s, g) {
      RaisedCountsFit(s, step.tx, g);
    }
  }

  // ---------------------------------------------------------------- whole runs

  ghost predicate Runnable(s: State, steps: seq<Step>)
    decreases |steps|
  {
    steps != [] ==> Enabled(s, steps[0]) && Runnable(Next(s, steps[0]), steps[1..])
  }

  ghost function Run(s: State, steps: seq<Step>): State
    requires Runnable(s, steps)
    decreases |steps|
  {
    if steps == [] then s else Run(Next(s, steps[0]), steps[1..])
  }

  /** The new limit admits everything the old one did. */
  predicate NotLowered(before: Option<nat>, after: Option<nat>) {
    after.Some? ==> before.Some? && before.value <= after.value
  }

  ghost predicate NeverLowers(s: State, steps: seq<Step>, g: Gate)
    requires Runnable(s, steps)
    decreases |steps|
  {
    steps != [] ==>
      && (steps[0].ChangeLimit? && steps[0].gate == g ==> NotLowered(s.limits[g], steps[0].limit))
      && NeverLowers(Next(s, steps[0]), steps[1..], g)
  }

  /** In every interleaving, a count within its limit stays within it as long as that limit is not lowered. */
  lemma {:induction false} CountNeverExceedsLimit(s: State, steps: seq<Step>, g: Gate)
    requires Inv(s) && Runnable(s, steps) && g in s.limits && Within(Count(s, g), s.limits[g])
    requires NeverLowers(s, steps, g)
    ensures Inv(Run(s, steps)) && g in Run(s, steps).limits
    ensures Within(Count(Run(s, steps), g), Run(s, steps).limits[g])
    decreases |steps|
  {
    if steps != [] {
      var s' := Next(s, steps[0]);
      StepKeepsInv(s, steps[0]);
      OnlyLoweringExceeds(s, steps[0], g);
      CountNeverExceedsLimit(s', steps[1..], g);
    }
  }

  // ---------------------------------------------------------------- the gate lets in all there is room for

  /** After a check the transaction is still open, with that check passed, exactly when its count is below the limit. */
  lemma GateAdmitsExactly(s: State, x: TxId, c: Capability)
    requires Enabled(s, CheckCount(x, c))
    ensures var g, after := Gate(s.open[x].tenant, c), Next(s, CheckCount(x, c));
      && (x in after.open <==> s.limits[g].None? || Count(s, g) + Inserted(s.open[x], c) < s.limits[g].value)
      && after == s.(open := if x in after.open then s.open[x := s.open[x].(passed := Some(c))] else s.open - {x})
  {
  }

  /** A transaction waits for the row lock exactly while another one of the same tenant is open. */
  lemma LockWaitsExactly(s: State, x: TxId, tenant: TenantId)
    requires x !in s.open && forall c :: Gate(tenant, c) in s.limits
    ensures Enabled(s, LockTenant(x, tenant)) <==> forall y :: y in s.open ==> s.open[y].tenant != tenant
    ensures forall c, limit ::
      Enabled(s, ChangeLimit(Gate(tenant, c), limit)) <==> forall y :: y in s.open ==> s.open[y].tenant != tenant
  {
  }

  function AddOne(x: TxId, g: Gate): seq<Step> {
    [LockTenant(x, g.tenant), CheckCount(x, g.capability), InsertRow(x), Commit(x)]
  }

  predicate HasRoom(s: State, g: Gate) {
    g in s.limits && (s.limits[g].Some? ==> Count(s, g) < s.limits[g].value)
  }

  /** The tenant row exists with its limits, nobody holds it, and `x` is no open transaction. */
  predicate Idle(s: State, x: TxId, tenant: TenantId) {
    x !in s.open && !Locked(s, tenant) && forall c :: Gate(tenant, c) in s.limits
  }

  /** `g` has grown by `n` rows and nothing else has moved. */
  ghost predicate Grown(s: State, after: State, g: Gate, n: nat) {
    && after.limits == s.limits && after.open == s.open
    && forall h :: Count(after, h) == Count(s, h) + if h == g then n else 0
  }

  /** The state with `x` open as `t`. */
  function Opened(s: State, x: TxId, t: Tx): State {
    s.(open := s.open[x := t])
  }

  /** The first three steps of adding a row, where there is room. */
  lemma RowIsInserted(s: State, x: TxId, g: Gate)
    requires Idle(s, x, g.tenant) && HasRoom(s, g)
    ensures var locked, checked := Tx(g.tenant, map[], None), Tx(g.tenant, map[], Some(g.capability));
      && Next(s, LockTenant(x, g.tenant)) == Opened(s, x, locked)
      && Next(Opened(s, x, locked), CheckCount(x, g.capability)) == Opened(s, x, checked)
      && Next(Opened(s, x, checked), InsertRow(x)) == Opened(s, x, Tx(g.tenant, map[g.capability := 1], None))
  {
    assert g == Gate(g.tenant, g.capability);
    GateAdmitsExactly(Opened(s, x, Tx(g.tenant, map[], None)), x, g.capability);
  }

  lemma RowIsCommitted(s: State, x: TxId, g: Gate)
    requires x !in s.open
    ensures Grown(s, Next(Opened(s, x, Tx(g.tenant, map[g.capability := 1], None)), Commit(x)), g, 1)
  {
    CommitCounts(Opened(s, x, Tx(g.tenant, map[g.capability := 1], None)), x);
    assert Opened(s, x, Tx(g.tenant, map[g.capability := 1], None)).open - {x} == s.open;
  }

  lemma AddOneRuns(s: State, x: TxId, g: Gate)
    requires Idle(s, x, g.tenant) && HasRoom(s, g)
    ensures Runnable(s, AddOne(x, g))
    ensures Run(s, AddOne(x, g)) == Next(Opened(s, x, Tx(g.tenant, map[g.capability := 1], None)), Commit(x))
  {
    RowIsInserted(s, x, g);
    var locked, checked := Tx(g.tenant, map[], None), Tx(g.tenant, map[], Some(g.capability));
    var inserted := Opened(s, x, Tx(g.tenant, map[g.capability := 1], None));
    StepThen(inserted, Commit(x), []);
    StepThen(Opened(s, x, checked), InsertRow(x), [Commit(x)]);
    StepThen(Opened(s, x, locked), CheckCount(x, g.capability), [InsertRow(x), Commit(x)]);
    StepThen(s, LockTenant(x, g.tenant), [CheckCount(x, g.capability), InsertRow(x), Commit(x)]);
    assert AddOne(x, g) == [LockTenant(x, g.tenant)] + [CheckCount(x, g.capability), InsertRow(x), Commit(x)];
  }

  /** On an idle tenant one more row goes in exactly when there is room; otherwise the attempt leaves no trace. */
  lemma OneMoreExactlyWhenRoom(s: State, x: TxId, g: Gate)
    requires Idle(s, x, g.tenant)
    ensures HasRoom(s, g) ==> Runnable(s, AddOne(x, g)) && Grown(s, Run(s, AddOne(x, g)), g, 1)
    ensures !HasRoom(s, g) ==> Runnable(s, AddOne(x, g)[..2]) && Run(s, AddOne(x, g)[..2]) == s
  {
    if HasRoom(s, g) {
      AddOneRuns(s, x, g);
      RowIsCommitted(s, x, g);
    } else {
      var locked := Opened(s, x, Tx(g.tenant, map[], None));
      assert g == Gate(g.tenant, g.capability);
      GateAdmitsExactly(locked, x, g.capability);
      assert Next(locked, CheckCount(x, g.capability)).open == s.open;
      StepThen(locked, CheckCount(x, g.capability), []);
      StepThen(s, LockTenant(x, g.tenant), [CheckCount(x, g.capability)]);
      assert AddOne(x, g)[..2] == [LockTenant(x, g.tenant)] + [CheckCount(x, g.capability)];
    }
  }

  lemma StepThen(s: State, step: Step, rest: seq<Step>)
    requires Enabled(s, step) && Runnable(Next(s, step), rest)
    ensures Runnable(s, [step] + rest) && Run(s, [step] + rest) == Run(Next(s, step), rest)
  {
    assert ([step] + rest)[1..] == rest;
  }

  function AddMany(x: TxId, g: Gate, n: nat): seq<Step> {
    if n == 0 then [] else AddOne(x, g) + AddMany(x, g, n - 1)
  }

  lemma {:induction false} RunsCompose(s: State, first: seq<Step>, second: seq<Step>)
    requires Runnable(s, first) && Runnable(Run(s, first), second)
    ensures Runnable(s, first + second) && Run(s, first + second) == Run(Run(s, first), second)
    decreases |first|
  {
    if first == [] {
      assert first + second == second;
    } else {
      assert (first + second)[1..] == first[1..] + second;
      RunsCompose(Next(s, first[0]), first[1..], second);
    }
  }

  /** So a tenant's count can be brought to its limit exactly, and without a limit to any number. */
  lemma {:induction false} CountsReachTheLimit(s: State, x: TxId, g: Gate, n: nat)
    requires Idle(s, x, g.tenant) && Within(Count(s, g) + n, s.limits[g])
    ensures Runnable(s, AddMany(x, g, n)) && Grown(s, Run(s, AddMany(x, g, n)), g, n)
    decreases n
  {
    if n > 0 {
      OneMoreExactlyWhenRoom(s, x, g);
      var one := Run(s, AddOne(x, g));
      CountsReachTheLimit(one, x, g, n - 1);
      RunsCompose(s, AddOne(x, g), AddMany(x, g, n - 1));
    }
  }

  /** The rows a run lands under `g`, less those it deletes. */
  ghost function Landed(s: State, steps: seq<Step>, g: Gate): int
    requires Runnable(s, steps)
    decreases |steps|
  {
    if steps == [] then 0
    else
      var step := steps[0];
      (if step.Commit? && s.open[step.tx].tenant == g.tenant then Inserted(s.open[step.tx], g.capability)
       else if step == DeleteRow(g) then -1 else 0) + Landed(Next(s, step), steps[1..], g)
  }

  /** Over every run a count moves by the rows committed and the rows deleted, and by nothing else. */
  lemma {:induction false} CountsAreConserved(s: State, steps: seq<Step>, g: Gate)
    requires Runnable(s, steps)
    ensures Count(Run(s, steps), g) == Count(s, g) + Landed(s, steps, g)
    decreases |steps|
  {
    if steps != [] {
      if steps[0].Commit? { CommitCounts(s, steps[0].tx); }
      CountsAreConserved(Next(s, steps[0]), steps[1..], g);
    }
  }

  /** What transaction `x` does between its lock and its end. */
  predicate Own(steps: seq<Step>, x: TxId) {
    forall step :: step in steps ==> step == InsertRow(x) || (step.CheckCount? && step.tx == x)
  }

  /** A transaction's steps move nothing but its own entry. */
  lemma {:induction false} OwnStepsStayInside(s: State, x: TxId, steps: seq<Step>)
    requires Own(steps, x) && Runnable(s, steps)
    ensures Run(s, steps) == s.(open := Run(s, steps).open) && Run(s, steps).open - {x} == s.open - {x}
    decreases |steps|
  {
    if steps != [] {
      assert steps[0] in steps;
      OwnStepsStayInside(Next(s, steps[0]), x, steps[1..]);
    }
  }

  /** Whatever a transaction checked and inserted, rolling it back restores the state it began in. */
  lemma RollbackLeavesNoTrace(s: State, x: TxId, tenant: TenantId, steps: seq<Step>)
    requires Own(steps, x) && Enabled(s, LockTenant(x, tenant))
    requires Runnable(Next(s, LockTenant(x, tenant)), steps)
    requires x in Run(Next(s, LockTenant(x, tenant)), steps).open
    ensures Next(Run(Next(s, LockTenant(x, tenant)), steps), Rollback(x)) == s
  {
    OwnStepsStayInside(Next(s, LockTenant(x, tenant)), x, steps);
    assert Next(s, LockTenant(x, tenant)).open - {x} == s.open;
  }
}
