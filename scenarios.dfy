/** The concrete situations the backend's own tests describe
    (backend/app/tests/test_policy.py and backend/app/tests/test_routes.py),
    stated for every window of identical samples rather than for the ten
    samples the tests push. */
module Scenarios {
  import opened Wrappers
  import opened Schemas
  import opened Rings
  import opened Metrics
  import opened RolloutStore
  import opened Policy
  import opened Transitions
  import opened HealthRoutes

  /** A window in which every sample is `h`. */
  predicate Uniform(events: seq<Health>, h: Health)
  {
    |events| > 0 && forall i :: 0 <= i < |events| ==> events[i] == h
  }

  /** Clean samples on an active rollout that has never been promoted: the
      gates pass and nothing is critical. */
  lemma GreenWindowCanPromote(r: RolloutState, events: seq<Health>, now: int)
    requires Uniform(events, Health(true, 0.999, 100))
    requires r.state == Active && r.lastPromoteTs.None?
    ensures var o := Evaluate(r, events, now);
      o.canPromote && o.breaches == [] && !o.autoRollback
  {
    UniformWindow(events, Health(true, 0.999, 100));
  }

  /** The same clean window 30 seconds after a promote: the cooldown alone
      blocks the next promote. */
  lemma CooldownBlocksDoublePromote(r: RolloutState, events: seq<Health>, now: int)
    requires Uniform(events, Health(true, 0.999, 100))
    requires r.state == Active && r.lastPromoteTs == Some(now - 30)
    ensures var o := Evaluate(r, events, now);
      !o.canPromote && o.breaches == [] && !o.autoRollback
  {
    UniformWindow(events, Health(true, 0.999, 100));
  }

  /** A crash-free median of 0.985 breaches the warn gate only. */
  lemma CrashFreeBelowGateBreaches(r: RolloutState, events: seq<Health>, now: int)
    requires Uniform(events, Health(true, 0.985, 100))
    ensures var o := Evaluate(r, events, now);
      !o.canPromote && o.breaches == [CrashFreeMedian] && !o.autoRollback
  {
    UniformWindow(events, Health(true, 0.985, 100));
  }

  /** A crash-free median of 0.94 is critical. */
  lemma CrashFreeBelowCutoffRollsBack(r: RolloutState, events: seq<Health>, now: int)
    requires Uniform(events, Health(true, 0.94, 100))
    ensures Evaluate(r, events, now).autoRollback
  {
    UniformWindow(events, Health(true, 0.94, 100));
  }

  /** A check-in of crash-free 0.98 and 600 ms on the active rollout's ring
      pauses it, and the PAUSE decision is its newest history entry. */
  lemma CheckinBreachPauses(r: RolloutState, events: seq<Health>, now: int)
    requires WellFormed(r) && r.ringIndex == 0
    requires Uniform(events, Health(true, 0.98, 600))
    ensures var t := CheckinStep(Some(r), Pilot, events, now);
      && t.Some?
      && t.value.rollout.state == Paused
      && t.value.rollout.lastPauseTs == Some(now)
      && var h := t.value.rollout.decisions; h != [] && h[|h| - 1].kind == Pause
  {
    UniformWindow(events, Health(true, 0.98, 600));
    var m := ComputeWindowMetrics(events);
    assert m.breaches == [CrashFreeMedian, CheckinMsMedian];
  }

  /** A window with no samples passes every gate: a fresh rollout is advised
      to promote, and may be promoted, before any device has checked in. */
  lemma EmptyWindowPromotes(r: RolloutState, now: int)
    requires r.state == Active && r.lastPromoteTs.None?
    ensures Evaluate(r, [], now).canPromote
    ensures Advise(Evaluate(r, [], now)).kind == Promote
  {
  }
}
