/** The closed label sets and immutable records of the SafeRoll backend
    (backend/app/schemas.py): rings, rollout states, decision kinds, a device
    health sample, the metrics snapshot and the decision audit record. */
module Schemas {

  /** The `Ring` literal: the four deployment stages. */
  datatype Ring = Pilot | Five | TwentyFive | All
  {
    /** The label the API uses for this ring. */
    function Label(): (s: string)
    {
      match this
      case Pilot => "pilot"
      case Five => "five"
      case TwentyFive => "twentyfive"
      case All => "all"
    }
  }

  /** The rollout `state` literal. */
  datatype RolloutStatus = Active | Paused | Completed

  /** The decision `kind` literal. */
  datatype DecisionKind = Promote | Pause | Rollback | AdviseNo

  /** A device health payload; `crash_free` is a ratio, modelled as a real. */
  datatype Health = Health(bootOk: bool, crashFree: real, checkinMs: int)

  /** The three numbers a decision embeds for audit. */
  datatype Snapshot = Snapshot(bootSuccess: real, crashFreeMedian: real, checkinMsMedian: real)

  /** An immutable audit record. `ts` is the decision time in whole seconds. */
  datatype Decision = Decision(ts: int, kind: DecisionKind, reason: string, ring: Ring, snapshot: Snapshot)
}
