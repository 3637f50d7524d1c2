/**
 The entitlement resolver: plan features, per-tenant overrides, the dependency pass over the
 taxonomy's `requires` graph, and the tenant's own toggles on top of the resulting ceiling.
 */
module Entitlements {
  import opened Wrappers
  import Sets

  type Key = string
  type Flags = map<Key, bool>

  datatype Meta = Meta(key: Key, parent: Option<Key>)
  type Taxonomy = seq<Meta>

  /** The mutable feature object of the source: the plan catalog holds one per tier. */
  class FeatureMap {
    var flags: Flags

    constructor (flags: Flags)
      ensures this.flags == flags
    {
      this.flags := flags;
    }
  }

  function On(flags: Flags): set<Key> {
    set k | k in flags && flags[k]
  }

  // ---------------------------------------------------------------- the dependency pass

  /** No key is on without the parent the taxonomy names for it. */
  predicate Closed(s: set<Key>, taxonomy: Taxonomy) {
    forall m :: m in taxonomy && m.parent.Some? && m.key in s ==> m.parent.value in s
  }

  /** The union of every dependency-closed subset of `s`. */
  ghost function GreatestClosed(s: set<Key>, taxonomy: Taxonomy): (g: set<Key>)
  {
    set k | k in s && exists t: set<Key> :: t <= s && Closed(t, taxonomy) && k in t
  }

  lemma GreatestIsClosed(s: set<Key>, taxonomy: Taxonomy)
    ensures GreatestClosed(s, taxonomy) <= s && Closed(GreatestClosed(s, taxonomy), taxonomy)
  {
    forall m | m in taxonomy && m.parent.Some? && m.key in GreatestClosed(s, taxonomy)
      ensures m.parent.value in GreatestClosed(s, taxonomy)
    {
      var t: set<Key> :| t <= s && Closed(t, taxonomy) && m.key in t;
      assert m.parent.value in t;
    }
  }

  lemma GreatestIsLargest(s: set<Key>, t: set<Key>, taxonomy: Taxonomy)
    requires t <= s && Closed(t, taxonomy)
    ensures t <= GreatestClosed(s, taxonomy)
  {
  }

  /** Larger input, larger closure. */
  lemma GreatestIsMonotone(s: set<Key>, s': set<Key>, taxonomy: Taxonomy)
    requires s <= s'
    ensures GreatestClosed(s, taxonomy) <= GreatestClosed(s', taxonomy)
  {
    GreatestIsClosed(s, taxonomy);
    GreatestIsLargest(s', GreatestClosed(s, taxonomy), taxonomy);
  }

  /** Only which (key, parent) pairs exist matters, not the order the taxonomy lists them in. */
  lemma OrderIsIrrelevant(s: set<Key>, taxonomy: Taxonomy, reordered: Taxonomy)
    requires forall m :: m in taxonomy <==> m in reordered
    ensures GreatestClosed(s, taxonomy) == GreatestClosed(s, reordered)
  {
    GreatestIsClosed(s, taxonomy);
    GreatestIsClosed(s, reordered);
    GreatestIsLargest(s, GreatestClosed(s, taxonomy), reordered);
    GreatestIsLargest(s, GreatestClosed(s, reordered), taxonomy);
  }

  predicate Violates(m: Meta, flags: Flags) {
    m.parent.Some? && m.key in On(flags) && m.parent.value !in On(flags)
  }

  /** Loop until a whole pass changes nothing, writing through the caller's object. */
  method EnforceFeatureDependencies(features: FeatureMap, taxonomy: Taxonomy)
    modifies features
    ensures On(features.flags) == GreatestClosed(On(old(features.flags)), taxonomy)
    ensures features.flags.Keys == old(features.flags.Keys)
  {
    ghost var start := On(features.flags);
    var changed := true;
    while changed
      invariant features.flags.Keys == old(features.flags.Keys)
      invariant On(features.flags) <= start
      invariant forall t: set<Key> :: t <= start && Closed(t, taxonomy) ==> t <= On(features.flags)
      invariant changed || Closed(On(features.flags), taxonomy)
      decreases |On(features.flags)|, changed
    {
      changed := false;
      ghost var before := On(features.flags);
      for i := 0 to |taxonomy|
        invariant features.flags.Keys == old(features.flags.Keys)
        invariant On(features.flags) <= before
        invariant forall t: set<Key> :: t <= start && Closed(t, taxonomy) ==> t <= On(features.flags)
        invariant !changed ==> On(features.flags) == before
        invariant !changed ==> forall j :: 0 <= j < i ==> !Violates(taxonomy[j], features.flags)
        invariant changed ==> On(features.flags) != before
      {
        var meta := taxonomy[i];
        if meta.parent.Some? && meta.key in features.flags && features.flags[meta.key]
           && !(meta.parent.value in features.flags && features.flags[meta.parent.value]) {
          ghost var was := features.flags;
          features.flags := features.flags[meta.key := false];
          changed := true;
          assert On(features.flags) == On(was) - {meta.key};
          assert meta in taxonomy;
        }
      }
      if changed {
        ProperSubsetIsSmaller(On(features.flags), before);
      }
    }
    GreatestIsClosed(start, taxonomy);
    GreatestIsLargest(start, On(features.flags), taxonomy);
  }

  lemma ProperSubsetIsSmaller(a: set<Key>, b: set<Key>)
    requires a < b
    ensures |a| < |b|
  {
    var x :| x in b && x !in a;
    Sets.SubsetIsNoLarger(a, b - {x});
  }

  // ---------------------------------------------------------------- overrides and toggles

  /** A JSON value in a drifting column: a Boolean, or anything else. */
  datatype Json = Bool(b: bool) | Other

  /** Names every plain object answers `in` for. */
  const INHERITED: set<Key> := {
    "constructor", "toString", "toLocaleString", "valueOf", "hasOwnProperty", "isPrototypeOf",
    "propertyIsEnumerable", "__proto__", "__defineGetter__", "__defineSetter__",
    "__lookupGetter__", "__lookupSetter__" }

  /** The entries the merge writes. Assigning a Boolean to `__proto__` leaves an object as it was. */
  predicate Applies(k: Key, overrides: map<Key, Json>, flags: Flags) {
    k in overrides && overrides[k].Bool? && (k in flags || (k in INHERITED && k != "__proto__"))
  }

  function Overridden(flags: Flags, overrides: map<Key, Json>): Flags {
    map k | k in flags.Keys + overrides.Keys && (k in flags || Applies(k, overrides, flags)) ::
      if Applies(k, overrides, flags) then overrides[k].b else flags[k]
  }

  method ApplyFeatureOverrides(features: FeatureMap, overrides: map<Key, Json>)
    modifies features
    ensures features.flags == Overridden(old(features.flags), overrides)
  {
    ghost var flags := features.flags;
    var left := overrides.Keys;
    while left != {}
      invariant left <= overrides.Keys
      invariant forall k :: k in features.flags <==> k in flags || (k !in left && Applies(k, overrides, flags))
      invariant forall k :: k in features.flags ==>
        features.flags[k] == if k !in left && Applies(k, overrides, flags) then overrides[k].b else flags[k]
      decreases left
    {
      var k :| k in left;
      if (k in features.flags || (k in INHERITED && k != "__proto__")) && overrides[k].Bool? {
        features.flags := features.flags[k := overrides[k].b];
      }
      left := left - {k};
    }
    assert features.flags.Keys == Overridden(flags, overrides).Keys;
  }

  /** An override key outside the catalog is dropped, as documented, unless every object inherits it. */
  lemma UnknownOverrideDropped(flags: Flags, overrides: map<Key, Json>, k: Key)
    requires k in overrides && overrides[k].Bool? && k !in flags
    ensures k in Overridden(flags, overrides) <==> k in INHERITED && k != "__proto__"
  {
  }

  /** What the tenant switched off: an explicit false, or an opt-in feature not explicitly on. */
  function TenantOff(toggles: Flags, toggleable: set<Key>, optIn: set<Key>): set<Key> {
    set k | k in toggleable && (if k in toggles then !toggles[k] else k in optIn)
  }

  function Listed(keys: seq<Key>): set<Key> {
    set k | k in keys
  }

  /** The well-formed, toggleable entries of the raw preference blob. */
  function Sanitized(raw: map<Key, Json>, toggleable: set<Key>): Flags {
    map k | k in raw && k in toggleable && raw[k].Bool? :: raw[k].b
  }

  /** Of a drifted column, exactly the Booleans under toggleable keys are heard, as they stand. */
  lemma PreferencesAreHeardExactly(raw: map<Key, Json>, toggleable: set<Key>)
    ensures forall k :: k in Sanitized(raw, toggleable) <==> k in toggleable && k in raw && raw[k] != Other
    ensures forall k :: k in Sanitized(raw, toggleable) ==> raw[k] == Bool(Sanitized(raw, toggleable)[k])
  {
  }

  method ApplyTenantToggles(features: FeatureMap, toggles: Flags, toggleable: seq<Key>, optIn: set<Key>)
    modifies features
    ensures On(features.flags) ==
            On(old(features.flags)) - TenantOff(toggles, Listed(toggleable), optIn)
  {
    ghost var on := On(features.flags);
    for i := 0 to |toggleable|
      invariant On(features.flags) == on - TenantOff(toggles, Listed(toggleable[..i]), optIn)
    {
      var k := toggleable[i];
      ghost var was := features.flags;
      assert toggleable[..i + 1] == toggleable[..i] + [k];
      ghost var off := TenantOff(toggles, Listed(toggleable[..i]), optIn);
      if k in toggles && !toggles[k] {
        features.flags := features.flags[k := false];
        assert On(features.flags) == On(was) - {k};
        assert TenantOff(toggles, Listed(toggleable[..i + 1]), optIn) == off + {k};
      } else if !(k in toggles && toggles[k]) && k in optIn {
        features.flags := features.flags[k := false];
        assert On(features.flags) == On(was) - {k};
        assert TenantOff(toggles, Listed(toggleable[..i + 1]), optIn) == off + {k};
      } else {
        assert TenantOff(toggles, Listed(toggleable[..i + 1]), optIn) == off;
      }
    }
    assert toggleable[..|toggleable|] == toggleable;
  }

  // ---------------------------------------------------------------- the resolver

  datatype Tier = Free | Essential | Pro | Enterprise
  datatype TenantStatus = Active | Inactive
  /** None is unlimited. */
  datatype Limits = Limits(agents: Option<int>, bots: Option<int>, sessions: Option<int>,
                           dailyLlmCalls: Option<int>, monthlyTokens: Option<int>)
  datatype Plan = Plan(id: Tier, limits: Limits, features: FeatureMap)
  datatype LimitOverrides = LimitOverrides(maxSessions: Option<int>, dailyLlmCallLimit: Option<int>,
                                           monthlyTokenLimit: Option<int>)
  datatype Context = Context(status: TenantStatus, overrides: map<Key, Json>, toggles: map<Key, Json>)
  datatype Resolved = Resolved(planId: Tier, billable: bool, limits: Limits,
                               features: FeatureMap, entitled: FeatureMap, toggles: Flags)

  predicate Billable(tier: Tier, status: TenantStatus) {
    tier != Free && status == Active
  }

  /** Minus one lifts the token cap on any tier, and then no other override is read. */
  function ResolvedLimits(tier: Tier, limits: Limits, o: LimitOverrides): Limits {
    if o.monthlyTokenLimit == Some(-1) then limits.(monthlyTokens := None)
    else if tier != Enterprise then limits
    else limits.(sessions := if o.maxSessions.Some? then o.maxSessions else limits.sessions,
                 dailyLlmCalls := if o.dailyLlmCallLimit.Some? then o.dailyLlmCallLimit else limits.dailyLlmCalls,
                 monthlyTokens := if o.monthlyTokenLimit.Some? then o.monthlyTokenLimit else limits.monthlyTokens)
  }

  function Overriding(o: LimitOverrides, sessions: Option<int>, calls: Option<int>): LimitOverrides {
    o.(maxSessions := sessions, dailyLlmCallLimit := calls)
  }

  /**
   An Enterprise tenant's other overrides take effect, each where it is set, unless its token limit is -1; then
   and only then nothing that is set there makes any difference.
   */
  lemma LiftedTokensHideOverrides(limits: Limits, o: LimitOverrides)
    ensures o.monthlyTokenLimit == Some(-1) <==>
      forall sessions, calls ::
        ResolvedLimits(Enterprise, limits, Overriding(o, sessions, calls)) == ResolvedLimits(Enterprise, limits, o)
    ensures o.monthlyTokenLimit != Some(-1) ==>
      var r := ResolvedLimits(Enterprise, limits, o);
      && (o.maxSessions.Some? ==> r.sessions == o.maxSessions)
      && (o.dailyLlmCallLimit.Some? ==> r.dailyLlmCalls == o.dailyLlmCallLimit)
      && (o.monthlyTokenLimit.Some? ==> r.monthlyTokens == o.monthlyTokenLimit)
  {
    if o.monthlyTokenLimit != Some(-1) {
      var now := ResolvedLimits(Enterprise, limits, o).sessions;
      var other := Some(if now.Some? then now.value + 1 else 0);
      assert ResolvedLimits(Enterprise, limits, Overriding(o, other, None)).sessions == other;
    }
  }

  ghost function Ceiling(plan: Flags, tier: Tier, ctx: Context, taxonomy: Taxonomy): set<Key> {
    if Billable(tier, ctx.status) then GreatestClosed(On(Overridden(plan, ctx.overrides)), taxonomy) else {}
  }

  ghost function Effective(plan: Flags, tier: Tier, ctx: Context, taxonomy: Taxonomy, toggleable: set<Key>,
                           optIn: set<Key>): set<Key> {
    GreatestClosed(Ceiling(plan, tier, ctx, taxonomy)
      - TenantOff(Sanitized(ctx.toggles, toggleable), toggleable, optIn), taxonomy)
  }

  method ClearAll(features: FeatureMap)
    modifies features
    ensures On(features.flags) == {}
  {
    var left := features.flags.Keys;
    while left != {}
      invariant forall k :: k in features.flags && k !in left ==> !features.flags[k]
      decreases left
    {
      var k :| k in left;
      features.flags := features.flags[k := false];
      left := left - {k};
    }
  }

  /** Clones the plan's feature object before any write; the catalog is not in the frame. */
  method EntitlementsFor(tier: Tier, catalog: map<Tier, Plan>, limitOverrides: LimitOverrides, ctx: Context,
                         taxonomy: Taxonomy, toggleable: seq<Key>, optIn: set<Key>)
    returns (r: Option<Resolved>)
    ensures r.Some? <==> tier in catalog
    ensures r.Some? ==>
      var plan := catalog[tier];
      && r.value.planId == plan.id && r.value.billable == Billable(tier, ctx.status)
      && r.value.limits == ResolvedLimits(tier, plan.limits, limitOverrides)
      && r.value.toggles == Sanitized(ctx.toggles, Listed(toggleable))
      && fresh(r.value.features) && fresh(r.value.entitled) && r.value.features != r.value.entitled
      && On(r.value.entitled.flags) == Ceiling(plan.features.flags, tier, ctx, taxonomy)
      && On(r.value.features.flags) == Effective(plan.features.flags, tier, ctx, taxonomy, Listed(toggleable), optIn)
  {
    if tier !in catalog { return None; }
    var plan := catalog[tier];
    var limits := plan.limits;
    if limitOverrides.monthlyTokenLimit == Some(-1) {
      limits := limits.(monthlyTokens := None);
    } else if tier == Enterprise {
      if limitOverrides.maxSessions.Some? { limits := limits.(sessions := limitOverrides.maxSessions); }
      if limitOverrides.dailyLlmCallLimit.Some? {
        limits := limits.(dailyLlmCalls := limitOverrides.dailyLlmCallLimit);
      }
      if limitOverrides.monthlyTokenLimit.Some? {
        limits := limits.(monthlyTokens := limitOverrides.monthlyTokenLimit);
      }
    }
    assert limits == ResolvedLimits(tier, plan.limits, limitOverrides);
    hide GreatestClosed, Overridden, TenantOff, ResolvedLimits;
    var features := new FeatureMap(plan.features.flags);
    var billable := tier != Free && ctx.status == Active;
    if !billable {
      ClearAll(features);
    } else {
      ApplyFeatureOverrides(features, ctx.overrides);
    }
    EnforceFeatureDependencies(features, taxonomy);
    EmptyStaysEmpty(taxonomy);
    var entitled := new FeatureMap(features.flags);
    ghost var listed := Listed(toggleable);
    var toggles := map k | k in ctx.toggles && k in toggleable && ctx.toggles[k].Bool? :: ctx.toggles[k].b;
    assert toggles == Sanitized(ctx.toggles, listed);
    hide On, Sanitized, Listed;
    if billable {
      ApplyTenantToggles(features, toggles, toggleable, optIn);
      EnforceFeatureDependencies(features, taxonomy);
    } else {
      assert {} - TenantOff(toggles, listed, optIn) == {};
    }
    r := Some(Resolved(plan.id, billable, limits, features, entitled, toggles));
  }

  lemma EmptyStaysEmpty(taxonomy: Taxonomy)
    ensures GreatestClosed({}, taxonomy) == {}
  {
  }

  // ---------------------------------------------------------------- laws of the result

  /** The two passes are one: closing the ceiling again after the toggles equals closing once. */
  lemma EffectiveClosedForm(plan: Flags, tier: Tier, ctx: Context, taxonomy: Taxonomy, toggleable: set<Key>,
                            optIn: set<Key>)
    ensures var off := TenantOff(Sanitized(ctx.toggles, toggleable), toggleable, optIn);
            Effective(plan, tier, ctx, taxonomy, toggleable, optIn) ==
            if Billable(tier, ctx.status) then GreatestClosed(On(Overridden(plan, ctx.overrides)) - off, taxonomy)
              else {}
  {
    var off := TenantOff(Sanitized(ctx.toggles, toggleable), toggleable, optIn);
    var all := On(Overridden(plan, ctx.overrides));
    if Billable(tier, ctx.status) {
      var ceiling := GreatestClosed(all, taxonomy);
      GreatestIsClosed(all, taxonomy);
      GreatestIsMonotone(ceiling - off, all - off, taxonomy);
      var g := GreatestClosed(all - off, taxonomy);
      GreatestIsClosed(all - off, taxonomy);
      GreatestIsLargest(all, g, taxonomy);
      GreatestIsLargest(ceiling - off, g, taxonomy);
    } else {
      EmptyStaysEmpty(taxonomy);
      assert {} - off == {};
    }
  }

  /** A preference never switches anything on above the ceiling, and an unbillable tenant has nothing. */
  lemma EffectiveWithinCeiling(plan: Flags, tier: Tier, ctx: Context, taxonomy: Taxonomy, toggleable: set<Key>,
                               optIn: set<Key>)
    ensures var on := Effective(plan, tier, ctx, taxonomy, toggleable, optIn);
            && on <= Ceiling(plan, tier, ctx, taxonomy) && Closed(on, taxonomy)
            && on !! TenantOff(Sanitized(ctx.toggles, toggleable), toggleable, optIn)
            && (!Billable(tier, ctx.status) ==> on == {})
  {
    GreatestIsClosed(Ceiling(plan, tier, ctx, taxonomy)
      - TenantOff(Sanitized(ctx.toggles, toggleable), toggleable, optIn), taxonomy);
  }

  /** `b` asks for at least what `a` asks for, key by key. */
  predicate AsksForMore(a: map<Key, Json>, b: map<Key, Json>, toggleable: set<Key>, optIn: set<Key>) {
    TenantOff(Sanitized(b, toggleable), toggleable, optIn) <= TenantOff(Sanitized(a, toggleable), toggleable, optIn)
  }

  lemma TogglesAreMonotone(plan: Flags, tier: Tier, ctx: Context, more: map<Key, Json>, taxonomy: Taxonomy,
                           toggleable: set<Key>, optIn: set<Key>)
    requires AsksForMore(ctx.toggles, more, toggleable, optIn)
    ensures Effective(plan, tier, ctx, taxonomy, toggleable, optIn) <=
            Effective(plan, tier, ctx.(toggles := more), taxonomy, toggleable, optIn)
    ensures Ceiling(plan, tier, ctx, taxonomy) == Ceiling(plan, tier, ctx.(toggles := more), taxonomy)
  {
    var c := Ceiling(plan, tier, ctx, taxonomy);
    GreatestIsMonotone(c - TenantOff(Sanitized(ctx.toggles, toggleable), toggleable, optIn),
                       c - TenantOff(Sanitized(more, toggleable), toggleable, optIn), taxonomy);
  }

  /** Switching one preference on, whatever it was, never loses a feature. */
  lemma SwitchingOnLosesNothing(plan: Flags, tier: Tier, ctx: Context, k: Key, taxonomy: Taxonomy,
                                toggleable: set<Key>, optIn: set<Key>)
    ensures Effective(plan, tier, ctx, taxonomy, toggleable, optIn) <=
            Effective(plan, tier, ctx.(toggles := ctx.toggles[k := Bool(true)]), taxonomy, toggleable, optIn)
  {
    assert AsksForMore(ctx.toggles, ctx.toggles[k := Bool(true)], toggleable, optIn);
    TogglesAreMonotone(plan, tier, ctx, ctx.toggles[k := Bool(true)], taxonomy, toggleable, optIn);
  }

  // ---------------------------------------------------------------- one feature, told from the inputs

  /** The plan has the key on, or a stored override that can be applied says so. */
  predicate Offered(plan: Flags, overrides: map<Key, Json>, k: Key) {
    if k in overrides && overrides[k].Bool? && (k in plan || (k in INHERITED && k != "__proto__")) then overrides[k].b
    else k in plan && plan[k]
  }

  /** The tenant may switch the key, and did switch it off or never switched an opt-in one on. */
  predicate Declined(toggles: map<Key, Json>, toggleable: set<Key>, optIn: set<Key>, k: Key) {
    k in toggleable && if k in toggles && toggles[k].Bool? then !toggles[k].b else k in optIn
  }

  /** The keys stand together: each is offered, and so is whatever the taxonomy says it requires. */
  ghost predicate StandTogether(keys: set<Key>, plan: Flags, overrides: map<Key, Json>, taxonomy: Taxonomy) {
    && (forall k :: k in keys ==> Offered(plan, overrides, k))
    && (forall m :: m in taxonomy && m.parent.Some? && m.key in keys ==> m.parent.value in keys)
  }

  /**
   A feature is in force exactly for an active tenant on a paid tier, when it stands together with all it
   requires and the tenant declined none of them; it is in the ceiling exactly when it does so before any
   preference is heard.
   */
  lemma FeatureIsOnExactly(plan: Flags, tier: Tier, ctx: Context, taxonomy: Taxonomy, toggleable: set<Key>,
                           optIn: set<Key>, k: Key)
    ensures k in Ceiling(plan, tier, ctx, taxonomy) <==>
      && tier in {Essential, Pro, Enterprise} && ctx.status == Active
      && exists keys: set<Key> :: k in keys && StandTogether(keys, plan, ctx.overrides, taxonomy)
    ensures k in Effective(plan, tier, ctx, taxonomy, toggleable, optIn) <==>
      && tier in {Essential, Pro, Enterprise} && ctx.status == Active
      && exists keys: set<Key> :: k in keys && StandTogether(keys, plan, ctx.overrides, taxonomy)
           && forall j :: j in keys ==> !Declined(ctx.toggles, toggleable, optIn, j)
  {
    var off := TenantOff(Sanitized(ctx.toggles, toggleable), toggleable, optIn);
    var all := On(Overridden(plan, ctx.overrides));
    EffectiveClosedForm(plan, tier, ctx, taxonomy, toggleable, optIn);
    assert forall j :: j in all <==> Offered(plan, ctx.overrides, j);
    assert forall j :: j in off <==> Declined(ctx.toggles, toggleable, optIn, j);
    forall keys: set<Key>
      ensures keys <= all && Closed(keys, taxonomy) <==> StandTogether(keys, plan, ctx.overrides, taxonomy)
      ensures keys <= all - off && Closed(keys, taxonomy)
        <==> StandTogether(keys, plan, ctx.overrides, taxonomy)
             && forall j :: j in keys ==> !Declined(ctx.toggles, toggleable, optIn, j)
    {
    }
  }

  /**
   Only an Enterprise tenant's overrides are read, each where it is set, and the lifted token cap is the one
   that every tier has; agents and bots are never overridden.
   */
  lemma OverridesAreReadExactly(tier: Tier, limits: Limits, o: LimitOverrides)
    ensures var r, read := ResolvedLimits(tier, limits, o), tier == Enterprise && o.monthlyTokenLimit != Some(-1);
      && r.agents == limits.agents && r.bots == limits.bots
      && (r.sessions != limits.sessions <==> read && o.maxSessions.Some? && o.maxSessions != limits.sessions)
      && (r.sessions != limits.sessions ==> r.sessions == o.maxSessions)
      && (r.dailyLlmCalls != limits.dailyLlmCalls
          <==> read && o.dailyLlmCallLimit.Some? && o.dailyLlmCallLimit != limits.dailyLlmCalls)
      && (r.dailyLlmCalls != limits.dailyLlmCalls ==> r.dailyLlmCalls == o.dailyLlmCallLimit)
      && (o.monthlyTokenLimit == Some(-1) ==> r.monthlyTokens == None)
      && (o.monthlyTokenLimit != Some(-1) ==>
            r.monthlyTokens == if read && o.monthlyTokenLimit.Some? then o.monthlyTokenLimit else limits.monthlyTokens)
  {
  }
}
