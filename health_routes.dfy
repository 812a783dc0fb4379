/** The check-in endpoint (backend/app/routes/health.py) without the HTTP
    layer: record the sample, then let the active rollout react to its own
    ring's window. */
module HealthRoutes {
  import opened Wrappers
  import opened Schemas
  import opened Rings
  import opened Metrics
  import opened RolloutStore
  import opened Policy
  import opened Transitions
  import opened RouteSteps

  /** Seconds until the device should check in again. */
  const NEXT_CHECK_SECONDS: int := 30

  /** The parts of the check-in answer that depend on the store; the fixed
      retry policy and the empty config delta are left out. */
  datatype CheckinResponse = CheckinResponse(
    rolloutId: Option<RolloutId>,
    applyTarget: Option<string>,
    nextCheckSeconds: int)

  /** `apply.target_version`: the rollout's target when the device runs
      something else; nothing when it already runs it or when there is no
      rollout (the device's own version is then the target). */
  function ApplyTarget(swVersion: string, rollout: Option<RolloutState>): (t: Option<string>)
    ensures t.None? <==> rollout.None? || rollout.value.targetVersion == swVersion
    ensures t.Some? ==> rollout.Some? && t.value == rollout.value.targetVersion && t.value != swVersion
  {
    var target := if rollout.Some? then rollout.value.targetVersion else swVersion;
    if swVersion != target then Some(target) else None
  }

  /** The transition a check-in on `ring` causes, given the active rollout
      and the (recorded and pruned) window of that ring: none unless the
      active rollout currently sits on that ring, and then the automatic
      one. */
  function CheckinStep(active: Option<RolloutState>, ring: Ring, window: seq<Health>, now: int): (t: Option<Step>)
    requires active.Some? ==> WellFormed(active.value)
    ensures t.Some? <==>
      && active.Some? && RINGS[active.value.ringIndex] == ring
      && (var o := Evaluate(active.value, window, now); o.autoRollback || o.breaches != [])
    ensures t.Some? ==>
      var o := Evaluate(active.value, window, now);
      && (t.value.decision.kind == Rollback <==> o.autoRollback)
      && (t.value.decision.kind == Pause <==> !o.autoRollback)
      && t.value.decision.ring == ring
      && t.value.rollout.id == active.value.id
      && WellFormed(t.value.rollout)
    ensures t.Some? ==> t == AutoTransition(active.value, Evaluate(active.value, window, now), now)
  {
    if active.Some? && RINGS[active.value.ringIndex] == ring then
      AutoTransition(active.value, Evaluate(active.value, window, now), now)
    else None
  }

  /** `post_checkin`. Every sample is recorded in its ring's window first;
      a transition of the active rollout follows `CheckinStep` on that
      window; the answer names the active rollout and advises its
      post-transition target. */
  method PostCheckin(store: Store, ring: Ring, swVersion: string, health: Health, ts: Option<int>, now: int)
    returns (resp: CheckinResponse)
    requires store.Valid() && store.CursorsInRange()
    modifies store
    ensures store.Valid() && store.CursorsInRange()
    ensures store.windows == old(store.windows)[ring :=
      Pruned(BoundedAppend(old(store.windows)[ring], TimedHealth(ParseTs(ts, now), health), MAX_WINDOW_LEN), Cutoff(now))]
    ensures store.activeId == old(store.activeId) && store.nextId == old(store.nextId)
    ensures resp.rolloutId == old(store.activeId) && resp.nextCheckSeconds == NEXT_CHECK_SECONDS
    ensures
      var active := if old(store.activeId).Some? then Some(old(store.rollouts)[old(store.activeId).value]) else None;
      var t := CheckinStep(active, ring, Healths(store.windows[ring]), now);
      && (t.None? ==>
            && store.rollouts == old(store.rollouts) && store.events == old(store.events)
            && resp.applyTarget == ApplyTarget(swVersion, active))
      && (t.Some? ==>
            && store.rollouts == old(store.rollouts)[active.value.id := t.value.rollout]
            && store.events == old(store.events) + [t.value.decision]
            && resp.applyTarget == ApplyTarget(swVersion, Some(t.value.rollout)))
  {
    store.RecordCheckin(ring, health, ts, now);
    PrunedIdempotent(BoundedAppend(old(store.windows)[ring], TimedHealth(ParseTs(ts, now), health), MAX_WINDOW_LEN), Cutoff(now));
    var rolloutId := store.activeId;
    var current := ReactToCheckin(store, ring, now);
    resp := CheckinResponse(rolloutId, ApplyTarget(swVersion, current), NEXT_CHECK_SECONDS);
  }

  /** The part of `post_checkin` after the sample is recorded: when the
      active rollout sits on the check-in's ring, evaluate it and apply the
      automatic transition; answer the rollout as it is afterwards. */
  method ReactToCheckin(store: Store, ring: Ring, now: int) returns (current: Option<RolloutState>)
    requires store.Valid() && store.CursorsInRange()
    requires Pruned(store.windows[ring], Cutoff(now)) == store.windows[ring]
    modifies store
    ensures store.Valid() && store.CursorsInRange()
    ensures store.windows == old(store.windows)
    ensures store.activeId == old(store.activeId) && store.nextId == old(store.nextId)
    ensures
      var active := if old(store.activeId).Some? then Some(old(store.rollouts)[old(store.activeId).value]) else None;
      var t := CheckinStep(active, ring, Healths(old(store.windows)[ring]), now);
      && (t.None? ==>
            store.rollouts == old(store.rollouts) && store.events == old(store.events) && current == active)
      && (t.Some? ==>
            && store.rollouts == old(store.rollouts)[active.value.id := t.value.rollout]
            && store.events == old(store.events) + [t.value.decision]
            && current == Some(t.value.rollout))
  {
    var active := store.ActiveRollout();
    current := active;
    if active.Some? && RingFor(active.value.ringIndex).value == ring {
      var id := active.value.id;
      ApplyAutoTransition(store, id, now);
      current := Some(store.GetRollout(id).value);
    }
  }

  /** Lines 29-54 of `post_checkin`: evaluate the rollout on its own ring's
      (already pruned) window; roll back on a critical breach, else pause on
      any breach, else change nothing. */
  method ApplyAutoTransition(store: Store, id: RolloutId, now: int)
    requires store.Valid() && store.CursorsInRange() && id in store.rollouts
    requires var ring := RINGS[store.rollouts[id].ringIndex];
      Pruned(store.windows[ring], Cutoff(now)) == store.windows[ring]
    modifies store
    ensures store.Valid() && store.CursorsInRange()
    ensures store.windows == old(store.windows)
    ensures store.activeId == old(store.activeId) && store.nextId == old(store.nextId)
    ensures
      var r := old(store.rollouts)[id];
      var t := AutoTransition(r, Evaluate(r, Healths(old(store.windows)[RINGS[r.ringIndex]]), now), now);
      && (t.None? ==> store.rollouts == old(store.rollouts) && store.events == old(store.events))
      && (t.Some? ==>
            && store.rollouts == old(store.rollouts)[id := t.value.rollout]
            && store.events == old(store.events) + [t.value.decision])
  {
    var r := store.GetRollout(id).value;
    var evaluated := EvaluateRollout(store, id, now);
    var outcome := evaluated.value;
    assert store.windows == old(store.windows);
    var ringLabel := RingFor(r.ringIndex).value;
    if outcome.autoRollback {
      AutoRollback(store, id, ringLabel, outcome.metrics, now);
    } else if outcome.breaches != [] {
      AutoPause(store, id, ringLabel, outcome.metrics, now);
    }
  }

  /** The critical branch of `post_checkin`: the rollback updates, then a
      ROLLBACK decision naming the ring the rollout was on. */
  method AutoRollback(store: Store, id: RolloutId, ringLabel: Ring, m: WindowMetrics, now: int)
    requires store.Valid() && store.CursorsInRange() && id in store.rollouts
    requires ringLabel == RINGS[store.rollouts[id].ringIndex]
    modifies store
    ensures store.Valid() && store.CursorsInRange()
    ensures var s := RollbackStep(old(store.rollouts)[id], AUTO_ROLLBACK_REASON, m, now);
      && store.rollouts == old(store.rollouts)[id := s.rollout]
      && store.events == old(store.events) + [s.decision]
    ensures store.windows == old(store.windows)
    ensures store.activeId == old(store.activeId) && store.nextId == old(store.nextId)
  {
    var r := store.GetRollout(id).value;
    ResetToLastKnownGood(store, id);
    ghost var reset := r.(targetVersion := r.lastKnownGood, ringIndex := RingBefore(r.ringIndex), state := Active);
    var d := BuildDecision(Rollback, AUTO_ROLLBACK_REASON, ringLabel, m, now);
    ghost var s := RollbackStep(r, AUTO_ROLLBACK_REASON, m, now);
    assert s == Step(WithDecision(reset, d, true), d);
    var _ := store.AppendEvent(id, d, true);
    OverwriteTwice(old(store.rollouts), id, reset, s.rollout);
  }

  /** The warn-tier branch of `post_checkin`: pause, then a PAUSE decision. */
  method AutoPause(store: Store, id: RolloutId, ringLabel: Ring, m: WindowMetrics, now: int)
    requires store.Valid() && store.CursorsInRange() && id in store.rollouts
    requires ringLabel == RINGS[store.rollouts[id].ringIndex]
    modifies store
    ensures store.Valid() && store.CursorsInRange()
    ensures var s := PauseStep(old(store.rollouts)[id], AUTO_PAUSE_REASON, m, now);
      && store.rollouts == old(store.rollouts)[id := s.rollout]
      && store.events == old(store.events) + [s.decision]
    ensures store.windows == old(store.windows)
    ensures store.activeId == old(store.activeId) && store.nextId == old(store.nextId)
  {
    var r := store.GetRollout(id).value;
    var _ := store.UpdateState(id, Paused);
    var d := BuildDecision(Pause, AUTO_PAUSE_REASON, ringLabel, m, now);
    ghost var s := PauseStep(r, AUTO_PAUSE_REASON, m, now);
    assert s == Step(WithDecision(r.(state := Paused), d, true), d);
    var _ := store.AppendEvent(id, d, true);
    OverwriteTwice(old(store.rollouts), id, r.(state := Paused), s.rollout);
  }
}
