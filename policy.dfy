/** The policy engine (backend/app/policy.py): the warn-tier gates, the
    stricter critical tier and the cooldown combine into a gating outcome;
    decisions are built here and nowhere else. The engine object only holds
    a reference to the store, which is a parameter here. */
module Policy {
  import opened Wrappers
  import opened Schemas
  import opened Rings
  import opened Metrics
  import opened RolloutStore

  const PROMOTE_COOLDOWN_SECONDS: int := 120
  const AUTO_ROLLBACK_CRASH: real := 0.950
  const AUTO_ROLLBACK_BOOT: real := 0.970

  datatype PolicyOutcome = PolicyOutcome(
    metrics: WindowMetrics,
    canPromote: bool,
    breaches: seq<Breach>,
    autoRollback: bool)

  /** `_needs_auto_rollback`: the critical tier. Its cutoffs are stricter
      than the warn gates, so on metrics whose breach list matches their
      statistics a critical breach always comes with a warn-tier breach. */
  function NeedsAutoRollback(m: WindowMetrics): (critical: bool)
    ensures critical <==> m.crashFreeMedian < AUTO_ROLLBACK_CRASH || m.bootSuccess < AUTO_ROLLBACK_BOOT
    ensures critical && GatesConsistent(m) ==> m.breaches != []
  {
    m.crashFreeMedian < AUTO_ROLLBACK_CRASH || m.bootSuccess < AUTO_ROLLBACK_BOOT
  }

  /** `evaluate_rollout` over the rollout's already-pruned window. */
  function Evaluate(r: RolloutState, window: seq<Health>, now: int): (o: PolicyOutcome)
    ensures o.metrics == ComputeWindowMetrics(window)
    ensures o.breaches == o.metrics.breaches
    ensures o.canPromote <==> && CooldownReady(r.lastPromoteTs, PROMOTE_COOLDOWN_SECONDS, now)
                              && o.breaches == []
                              && r.state == Active
    ensures o.autoRollback <==> o.metrics.crashFreeMedian < AUTO_ROLLBACK_CRASH
                                || o.metrics.bootSuccess < AUTO_ROLLBACK_BOOT
    ensures o.autoRollback ==> o.breaches != [] && !o.canPromote
    ensures r.state != Active ==> !o.canPromote
  {
    var metrics := ComputeWindowMetrics(window);
    var cooldownReady := CooldownReady(r.lastPromoteTs, PROMOTE_COOLDOWN_SECONDS, now);
    var breaches := metrics.breaches;
    var autoRollback := NeedsAutoRollback(metrics);
    var canPromote := cooldownReady && breaches == [] && r.state == Active;
    PolicyOutcome(metrics, canPromote, breaches, autoRollback)
  }

  /** `build_decision`: stamps the time and embeds the metrics snapshot. */
  function BuildDecision(kind: DecisionKind, reason: string, ring: Ring, m: WindowMetrics, now: int): (d: Decision)
    ensures d.kind == kind && d.reason == reason && d.ring == ring && d.ts == now
    ensures d.snapshot == m.Snapshot()
  {
    Decision(now, kind, reason, ring, m.Snapshot())
  }

  /** `evaluate_ring`: the ring's metrics, pruning its window first. */
  method EvaluateRing(store: Store, ring: Ring, now: int) returns (m: WindowMetrics)
    requires store.Valid()
    modifies store
    ensures store.Valid()
    ensures store.windows == old(store.windows)[ring := Pruned(old(store.windows)[ring], Cutoff(now))]
    ensures m == ComputeWindowMetrics(Healths(Pruned(old(store.windows)[ring], Cutoff(now))))
    ensures store.rollouts == old(store.rollouts) && store.activeId == old(store.activeId)
    ensures store.events == old(store.events) && store.nextId == old(store.nextId)
  {
    m := store.MetricsForRing(ring, now);
  }

  /** `evaluate_rollout`: fails for an unknown id without touching the store;
      otherwise prunes the window of the rollout's ring and evaluates it. */
  method EvaluateRollout(store: Store, id: RolloutId, now: int) returns (res: Result<PolicyOutcome, StoreError>)
    requires store.Valid() && store.CursorsInRange()
    modifies store
    ensures store.Valid() && store.CursorsInRange()
    ensures res.Ok? <==> id in old(store.rollouts)
    ensures res.Err? ==> store.windows == old(store.windows)
    ensures res.Ok? ==>
      var r := old(store.rollouts)[id];
      var ring := RINGS[r.ringIndex];
      && store.windows == old(store.windows)[ring := Pruned(old(store.windows)[ring], Cutoff(now))]
      && res.value == Evaluate(r, Healths(Pruned(old(store.windows)[ring], Cutoff(now))), now)
    ensures store.rollouts == old(store.rollouts) && store.activeId == old(store.activeId)
    ensures store.events == old(store.events) && store.nextId == old(store.nextId)
  {
    var got := store.GetRollout(id);
    if got.Err? {
      return Err(got.error);
    }
    var r := got.value;
    var ring := RingFor(r.ringIndex).value;
    var m := EvaluateRing(store, ring, now);
    var cooldownReady := store.PromoteCooldownReady(id, PROMOTE_COOLDOWN_SECONDS, now).value;
    var breaches := m.breaches;
    var autoRollback := NeedsAutoRollback(m);
    var canPromote := cooldownReady && breaches == [] && r.state == Active;
    res := Ok(PolicyOutcome(m, canPromote, breaches, autoRollback));
  }
}
