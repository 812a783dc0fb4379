/** The transition rule the route handlers apply (backend/app/routes/health.py
    and backend/app/routes/rollout.py): what each kind of decision does to a
    rollout record, and which decision the automatic and the advisory paths
    choose. Both the automatic check-in path and the operator endpoints go
    through the same steps. */
module Transitions {
  import opened Wrappers
  import opened Schemas
  import opened Rings
  import opened Metrics
  import opened RolloutStore
  import opened Policy

  const AUTO_ROLLBACK_REASON: string := "Auto-rollback: critical SLO breach"
  const AUTO_PAUSE_REASON: string := "Auto-pause: SLO breach"
  const MANUAL_PAUSE_REASON: string := "Manual pause"
  const MANUAL_ROLLBACK_REASON: string := "Manual rollback"

  /** A rollout record after a transition, and the decision it logged. */
  datatype Step = Step(rollout: RolloutState, decision: Decision)

  /** `reason or default`: a missing or empty caller reason falls back. */
  function ReasonOr(reason: Option<string>, default: string): (r: string)
    ensures reason.Some? && reason.value != "" ==> r == reason.value
    ensures reason.None? || reason.value == "" ==> r == default
  {
    if reason.Some? && reason.value != "" then reason.value else default
  }

  /** `max(0, i - 1)`: one ring back, never below the first. */
  function RingBefore(i: int): (j: int)
    ensures ValidIndex(i) ==> ValidIndex(j)
    ensures i > 0 ==> j == i - 1
    ensures i <= 0 ==> j == 0
  {
    if i - 1 > 0 then i - 1 else 0
  }

  /** Promote: below the final ring the index moves up by exactly one and the
      decision names the new ring; at the final ring the rollout becomes
      completed in place. Either way the promote timestamp starts the
      cooldown. */
  function PromoteStep(r: RolloutState, m: WindowMetrics, now: int): (s: Step)
    requires WellFormed(r)
    ensures WellFormed(s.rollout)
    ensures s.decision.kind == Promote && s.decision.ts == now && s.decision.snapshot == m.Snapshot()
    ensures !IsFinalRing(r.ringIndex) ==>
      && s.rollout == r.(ringIndex := r.ringIndex + 1, lastPromoteTs := Some(now),
                         decisions := BoundedAppend(r.decisions, s.decision, MAX_DECISIONS))
      && s.decision.ring == RINGS[r.ringIndex + 1]
      && s.decision.reason == "SLO gates passing"
    ensures IsFinalRing(r.ringIndex) ==>
      && s.rollout == r.(state := Completed, lastPromoteTs := Some(now),
                         decisions := BoundedAppend(r.decisions, s.decision, MAX_DECISIONS))
      && s.decision.ring == RINGS[r.ringIndex]
      && s.decision.reason == "Rollout completed"
  {
    match NextRingIndex(r.ringIndex)
    case None =>
      var d := BuildDecision(Promote, "Rollout completed", RingFor(r.ringIndex).value, m, now);
      var r1 := r.(state := Completed);
      var r2 := WithDecision(r1, d, true);
      assert r2 == r1.(lastPromoteTs := Some(now), decisions := BoundedAppend(r.decisions, d, MAX_DECISIONS));
      Step(r2, d)
    case Some(next) =>
      var d := BuildDecision(Promote, "SLO gates passing", RingFor(next).value, m, now);
      var r1 := r.(ringIndex := next);
      var r2 := WithDecision(r1, d, true);
      assert r2 == r1.(lastPromoteTs := Some(now), decisions := BoundedAppend(r.decisions, d, MAX_DECISIONS));
      Step(r2, d)
  }

  /** Pause, from any state (completed included): only the state and the
      pause bookkeeping change. */
  function PauseStep(r: RolloutState, reason: string, m: WindowMetrics, now: int): (s: Step)
    requires WellFormed(r)
    ensures WellFormed(s.rollout)
    ensures s.decision == Decision(now, Pause, reason, RINGS[r.ringIndex], m.Snapshot())
    ensures s.rollout == r.(state := Paused, lastPauseTs := Some(now),
                            decisions := BoundedAppend(r.decisions, s.decision, MAX_DECISIONS))
  {
    var d := BuildDecision(Pause, reason, RingFor(r.ringIndex).value, m, now);
    Step(WithDecision(r.(state := Paused), d, true), d)
  }

  /** Rollback, from any state (completed included): back to the last known
      good version, one ring back (not below the first), active again; the
      decision names the ring the rollout was on. Cooldown timestamps stay. */
  function RollbackStep(r: RolloutState, reason: string, m: WindowMetrics, now: int): (s: Step)
    requires WellFormed(r)
    ensures WellFormed(s.rollout)
    ensures s.decision == Decision(now, Rollback, reason, RINGS[r.ringIndex], m.Snapshot())
    ensures s.rollout == r.(targetVersion := r.lastKnownGood, ringIndex := RingBefore(r.ringIndex),
                            state := Active,
                            decisions := BoundedAppend(r.decisions, s.decision, MAX_DECISIONS))
    ensures s.rollout.ringIndex <= r.ringIndex
  {
    var d := BuildDecision(Rollback, reason, RingFor(r.ringIndex).value, m, now);
    var r1 := r.(targetVersion := r.lastKnownGood);
    var r2 := r1.(ringIndex := RingBefore(r.ringIndex));
    var r3 := r2.(state := Active);
    Step(WithDecision(r3, d, true), d)
  }

  /** The automatic path on a check-in: a critical breach rolls back, with
      strict priority over a warn-tier breach, which pauses; a clean window
      changes nothing. */
  function AutoTransition(r: RolloutState, o: PolicyOutcome, now: int): (t: Option<Step>)
    requires WellFormed(r)
    ensures t.Some? <==> o.autoRollback || o.breaches != []
    ensures o.autoRollback ==> t == Some(RollbackStep(r, AUTO_ROLLBACK_REASON, o.metrics, now))
    ensures !o.autoRollback && o.breaches != [] ==> t == Some(PauseStep(r, AUTO_PAUSE_REASON, o.metrics, now))
    ensures t.Some? ==> WellFormed(t.value.rollout)
    ensures t.Some? ==> var h := t.value.rollout.decisions; h != [] && h[|h| - 1] == t.value.decision
  {
    if o.autoRollback then Some(RollbackStep(r, AUTO_ROLLBACK_REASON, o.metrics, now))
    else if o.breaches != [] then Some(PauseStep(r, AUTO_PAUSE_REASON, o.metrics, now))
    else None
  }

  /** The comma-separated breach names. */
  function JoinNames(bs: seq<Breach>): (s: string)
    ensures bs == [] <==> s == ""
  {
    if bs == [] then ""
    else if |bs| == 1 then bs[0].Name()
    else bs[0].Name() + ", " + JoinNames(bs[1..])
  }

  datatype Advice = Advice(kind: DecisionKind, reason: string)

  /** The advisory choice of `should_promote`, by priority: promote, then
      rollback, then pause, else no. */
  function Advise(o: PolicyOutcome): (a: Advice)
    ensures a.kind == Promote <==> o.canPromote
    ensures a.kind == Rollback <==> !o.canPromote && o.autoRollback
    ensures a.kind == Pause <==> !o.canPromote && !o.autoRollback && o.breaches != []
    ensures a.kind == AdviseNo <==> !o.canPromote && !o.autoRollback && o.breaches == []
  {
    if o.canPromote then Advice(Promote, "All SLO gates passing and cooldown satisfied")
    else if o.autoRollback then Advice(Rollback, "Critical thresholds breached")
    else if o.breaches != [] then Advice(Pause, "SLO breaches detected: " + JoinNames(o.breaches))
    else Advice(AdviseNo, "Cooldown active")
  }

  /** The advisory endpoint and the automatic check-in path agree: on an
      outcome of `Evaluate`, the advice is ROLLBACK exactly when the
      automatic path rolls back, PAUSE exactly when it pauses, and PROMOTE
      or ADVISE_NO exactly when it leaves the rollout alone. */
  lemma AdviceAgreesWithAutoTransition(r: RolloutState, window: seq<Health>, now: int)
    requires WellFormed(r)
    ensures var o := Evaluate(r, window, now);
      var a := Advise(o);
      var t := AutoTransition(r, o, now);
      && (a.kind == Rollback <==> t.Some? && t.value.decision.kind == Rollback)
      && (a.kind == Pause <==> t.Some? && t.value.decision.kind == Pause)
      && (a.kind == Promote || a.kind == AdviseNo <==> t.None?)
  {
  }

  /** A rollback right after a promote below the final ring puts the
      rollout back on the ring it was promoted from, active again, on the
      last known good version. */
  lemma RollbackUndoesPromote(r: RolloutState, m: WindowMetrics, m': WindowMetrics, reason: string, now: int, later: int)
    requires WellFormed(r) && !IsFinalRing(r.ringIndex)
    ensures var p := PromoteStep(r, m, now).rollout;
      var b := RollbackStep(p, reason, m', later);
      && b.rollout.ringIndex == r.ringIndex
      && b.rollout.state == Active
      && b.rollout.targetVersion == r.lastKnownGood
      && b.decision.ring == RINGS[r.ringIndex + 1]
  {
  }
}
