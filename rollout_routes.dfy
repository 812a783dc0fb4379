/** The decision logic of the rollout endpoints (backend/app/routes/rollout.py),
    without the HTTP layer: a 404 becomes `NotFound`, a 400 `Denied`. */
module RolloutRoutes {
  import opened Wrappers
  import opened Schemas
  import opened Rings
  import opened Metrics
  import opened RolloutStore
  import opened Policy
  import opened Transitions
  import opened RouteSteps

  datatype RouteError = NotFound | Denied

  /** The advisory answer of `should_promote`. */
  datatype ShouldPromoteResponse = ShouldPromoteResponse(
    decision: DecisionKind,
    reason: string,
    metrics: Snapshot,
    breaches: seq<Breach>)

  /** `get_rollout`: the record and its bounded history. */
  function GetRolloutDetail(store: Store, id: RolloutId): (res: Result<(RolloutState, seq<Decision>), RouteError>)
    reads store
    requires store.Valid()
    ensures res.Err? <==> id !in store.rollouts
    ensures res.Err? ==> res.error == NotFound
    ensures res.Ok? ==> res.value.0 == store.rollouts[id] && res.value.1 == store.rollouts[id].decisions
                        && |res.value.1| <= MAX_DECISIONS
  {
    if id !in store.rollouts then Err(NotFound)
    else Ok((store.GetRollout(id).value, store.RolloutDecisions(id).value))
  }

  /** `promote_rollout`. Evaluating prunes the window of the rollout's ring
      even when the promote is then denied. */
  method PromoteRollout(store: Store, id: RolloutId, now: int) returns (res: Result<RolloutState, RouteError>)
    requires store.Valid() && store.CursorsInRange()
    modifies store
    ensures store.Valid() && store.CursorsInRange()
    ensures id !in old(store.rollouts) ==>
      && res == Err(NotFound)
      && store.rollouts == old(store.rollouts) && store.events == old(store.events)
      && store.windows == old(store.windows)
    ensures id in old(store.rollouts) ==>
      var r := old(store.rollouts)[id];
      var ring := RINGS[r.ringIndex];
      var o := Evaluate(r, Healths(Pruned(old(store.windows)[ring], Cutoff(now))), now);
      && store.windows == old(store.windows)[ring := Pruned(old(store.windows)[ring], Cutoff(now))]
      && (!o.canPromote ==>
            res == Err(Denied) && store.rollouts == old(store.rollouts) && store.events == old(store.events))
      && (o.canPromote ==>
            var s := PromoteStep(r, o.metrics, now);
            && res == Ok(s.rollout)
            && store.rollouts == old(store.rollouts)[id := s.rollout]
            && store.events == old(store.events) + [s.decision])
    ensures store.activeId == old(store.activeId) && store.nextId == old(store.nextId)
  {
    if id !in store.rollouts {
      return Err(NotFound);
    }
    var evaluated := EvaluateRollout(store, id, now);
    var outcome := evaluated.value;
    if !outcome.canPromote {
      return Err(Denied);
    }
    var r := store.GetRollout(id).value;
    ghost var s := PromoteStep(r, outcome.metrics, now);
    var next := NextRingIndex(r.ringIndex);
    var d;
    ghost var moved;
    if next.None? {
      var _ := store.UpdateState(id, Completed);
      moved := r.(state := Completed);
      d := BuildDecision(Promote, "Rollout completed", RingFor(r.ringIndex).value, outcome.metrics, now);
    } else {
      var _ := store.UpdateRingIndex(id, next.value);
      moved := r.(ringIndex := next.value);
      d := BuildDecision(Promote, "SLO gates passing", RingFor(next.value).value, outcome.metrics, now);
    }
    assert s == Step(WithDecision(moved, d, true), d);
    var _ := store.AppendEvent(id, d, true);
    OverwriteTwice(old(store.rollouts), id, moved, s.rollout);
    res := Ok(store.GetRollout(id).value);
  }

  /** `pause_rollout`: unconditional, from any state. */
  method PauseRollout(store: Store, id: RolloutId, reason: Option<string>, now: int)
    returns (res: Result<RolloutState, RouteError>)
    requires store.Valid() && store.CursorsInRange()
    modifies store
    ensures store.Valid() && store.CursorsInRange()
    ensures id !in old(store.rollouts) ==>
      && res == Err(NotFound)
      && store.rollouts == old(store.rollouts) && store.events == old(store.events)
      && store.windows == old(store.windows)
    ensures id in old(store.rollouts) ==>
      var r := old(store.rollouts)[id];
      var ring := RINGS[r.ringIndex];
      var m := ComputeWindowMetrics(Healths(Pruned(old(store.windows)[ring], Cutoff(now))));
      var s := PauseStep(r, ReasonOr(reason, MANUAL_PAUSE_REASON), m, now);
      && store.windows == old(store.windows)[ring := Pruned(old(store.windows)[ring], Cutoff(now))]
      && res == Ok(s.rollout)
      && store.rollouts == old(store.rollouts)[id := s.rollout]
      && store.events == old(store.events) + [s.decision]
    ensures store.activeId == old(store.activeId) && store.nextId == old(store.nextId)
  {
    if id !in store.rollouts {
      return Err(NotFound);
    }
    var why := ReasonOr(reason, MANUAL_PAUSE_REASON);
    var _ := store.UpdateState(id, Paused);
    var r := store.GetRollout(id).value;
    var ring := RingFor(r.ringIndex).value;
    assert store.windows == old(store.windows);
    var m := EvaluateRing(store, ring, now);
    var d := BuildDecision(Pause, why, ring, m, now);
    ghost var s := PauseStep(old(store.rollouts)[id], why, m, now);
    assert s == Step(WithDecision(r, d, true), d);
    var _ := store.AppendEvent(id, d, true);
    OverwriteTwice(old(store.rollouts), id, r, s.rollout);
    res := Ok(store.GetRollout(id).value);
  }

  /** `rollback_rollout`: unconditional, from any state. */
  method RollbackRollout(store: Store, id: RolloutId, reason: Option<string>, now: int)
    returns (res: Result<RolloutState, RouteError>)
    requires store.Valid() && store.CursorsInRange()
    modifies store
    ensures store.Valid() && store.CursorsInRange()
    ensures id !in old(store.rollouts) ==>
      && res == Err(NotFound)
      && store.rollouts == old(store.rollouts) && store.events == old(store.events)
      && store.windows == old(store.windows)
    ensures id in old(store.rollouts) ==>
      var r := old(store.rollouts)[id];
      var ring := RINGS[r.ringIndex];
      var m := ComputeWindowMetrics(Healths(Pruned(old(store.windows)[ring], Cutoff(now))));
      var s := RollbackStep(r, ReasonOr(reason, MANUAL_ROLLBACK_REASON), m, now);
      && store.windows == old(store.windows)[ring := Pruned(old(store.windows)[ring], Cutoff(now))]
      && res == Ok(s.rollout)
      && store.rollouts == old(store.rollouts)[id := s.rollout]
      && store.events == old(store.events) + [s.decision]
    ensures store.activeId == old(store.activeId) && store.nextId == old(store.nextId)
  {
    if id !in store.rollouts {
      return Err(NotFound);
    }
    var r := store.GetRollout(id).value;
    var why := ReasonOr(reason, MANUAL_ROLLBACK_REASON);
    var currentRing := RingFor(r.ringIndex).value;
    ResetToLastKnownGood(store, id);
    ghost var reset := r.(targetVersion := r.lastKnownGood, ringIndex := RingBefore(r.ringIndex), state := Active);
    assert store.windows == old(store.windows);
    var m := EvaluateRing(store, currentRing, now);
    var d := BuildDecision(Rollback, why, currentRing, m, now);
    ghost var s := RollbackStep(r, why, m, now);
    assert s == Step(WithDecision(reset, d, true), d);
    var _ := store.AppendEvent(id, d, true);
    OverwriteTwice(old(store.rollouts), id, reset, s.rollout);
    res := Ok(store.GetRollout(id).value);
  }

  /** `should_promote`: a dry run. It logs the advice to the global event
      log only; no rollout record changes. */
  method ShouldPromote(store: Store, id: RolloutId, now: int) returns (res: Result<ShouldPromoteResponse, RouteError>)
    requires store.Valid() && store.CursorsInRange()
    modifies store
    ensures store.Valid() && store.CursorsInRange()
    ensures store.rollouts == old(store.rollouts)
    ensures id !in old(store.rollouts) ==>
      res == Err(NotFound) && store.events == old(store.events) && store.windows == old(store.windows)
    ensures id in old(store.rollouts) ==>
      var r := old(store.rollouts)[id];
      var ring := RINGS[r.ringIndex];
      var o := Evaluate(r, Healths(Pruned(old(store.windows)[ring], Cutoff(now))), now);
      var a := Advise(o);
      && store.windows == old(store.windows)[ring := Pruned(old(store.windows)[ring], Cutoff(now))]
      && store.events == old(store.events) + [BuildDecision(a.kind, a.reason, ring, o.metrics, now)]
      && res == Ok(ShouldPromoteResponse(a.kind, a.reason, o.metrics.Snapshot(), o.breaches))
    ensures store.activeId == old(store.activeId) && store.nextId == old(store.nextId)
  {
    if id !in store.rollouts {
      return Err(NotFound);
    }
    var evaluated := EvaluateRollout(store, id, now);
    var outcome := evaluated.value;
    var advice := Advise(outcome);
    var r := store.GetRollout(id).value;
    var ring := RingFor(r.ringIndex).value;
    var _ := store.AppendEvent(id, BuildDecision(advice.kind, advice.reason, ring, outcome.metrics, now), false);
    OverwriteSame(old(store.rollouts), id);
    res := Ok(ShouldPromoteResponse(advice.kind, advice.reason, outcome.metrics.Snapshot(), outcome.breaches));
  }
}
