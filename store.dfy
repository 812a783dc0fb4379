/** The in-memory store (backend/app/store.py): rollout records, each with a
    bounded decision history, the process-wide event log, and one bounded,
    time-pruned health window per ring. Timestamps are whole seconds and the
    current time is a parameter. */
module RolloutStore {
  import opened Wrappers
  import opened Schemas
  import opened Rings
  import opened Metrics

  const MAX_WINDOW_LEN: nat := 1200
  const MAX_DECISIONS: nat := 10

  /** Rollout ids are abstract; the store hands out fresh ones from a counter. */
  type RolloutId = nat

  /** One entry of a ring window: arrival timestamp and sample. */
  datatype TimedHealth = TimedHealth(ts: int, health: Health)

  /** `RolloutState`. */
  datatype RolloutState = RolloutState(
    id: RolloutId,
    targetVersion: string,
    lastKnownGood: string,
    state: RolloutStatus,
    ringIndex: int,
    createdAt: int,
    lastPromoteTs: Option<int>,
    lastPauseTs: Option<int>,
    decisions: seq<Decision>)

  /** The KeyError raised for an unknown rollout id. */
  datatype StoreError = UnknownRollout

  /** The part of a rollout every route keeps: a ring index `ring_for`
      accepts and a history no longer than the deque's capacity. */
  predicate WellFormed(r: RolloutState)
  {
    ValidIndex(r.ringIndex) && |r.decisions| <= MAX_DECISIONS
  }

  /** The soft-failing timestamp parse: an unparseable timestamp (`None`)
      becomes the current time. */
  function ParseTs(ts: Option<int>, now: int): (t: int)
    ensures ts.Some? ==> t == ts.value
    ensures ts.None? ==> t == now
  {
    match ts
    case Some(t) => t
    case None => now
  }

  /** Appending to a `deque(maxlen=cap)`: the new element goes at the end and,
      once the deque is full, the oldest elements are evicted. */
  function BoundedAppend<T>(s: seq<T>, x: T, cap: nat): (r: seq<T>)
    ensures |r| == if |s| + 1 <= cap then |s| + 1 else cap
    ensures cap > 0 ==> r[|r| - 1] == x
    ensures 0 < |s| == cap ==> r == s[1..] + [x]
  {
    var full := s + [x];
    if |full| <= cap then full else full[|full| - cap..]
  }

  /** The window after `_prune_ring`: entries are dropped from the front while
      the front entry is older than the cutoff; the scan stops at the first
      entry that is not. */
  function Pruned(w: seq<TimedHealth>, cutoff: int): (r: seq<TimedHealth>)
    ensures |r| <= |w|
    ensures forall i :: 0 <= i < |w| - |r| ==> w[i].ts < cutoff
    ensures r != [] ==> r[0].ts >= cutoff
    decreases |w|
  {
    if w != [] && w[0].ts < cutoff then
      var r := Pruned(w[1..], cutoff);
      assert forall i :: 1 <= i < |w| ==> w[i] == w[1..][i - 1];
      r
    else w
  }

  /** The samples of a window, oldest first. */
  function Healths(w: seq<TimedHealth>): (r: seq<Health>)
    ensures |r| == |w|
    ensures forall i :: 0 <= i < |w| ==> r[i] == w[i].health
  {
    seq(|w|, i requires 0 <= i < |w| => w[i].health)
  }

  /** Cutoff used by pruning at time `now`. */
  function Cutoff(now: int): (c: int)
  {
    now - WINDOW_SECONDS
  }

  /** `promote_cooldown_ready` on a rollout's last promote time. */
  function CooldownReady(lastPromoteTs: Option<int>, cooldownSeconds: int, now: int): (ready: bool)
    ensures lastPromoteTs.None? ==> ready
    ensures lastPromoteTs.Some? ==> (ready <==> now - lastPromoteTs.value >= cooldownSeconds)
  {
    match lastPromoteTs
    case None => true
    case Some(t) => now - t >= cooldownSeconds
  }

  /** What `append_event` does to the rollout's own record: with the history
      included, the decision enters the bounded history and a PROMOTE or
      PAUSE decision stamps the matching timestamp; without it, nothing. */
  function WithDecision(r: RolloutState, d: Decision, includeHistory: bool): (r': RolloutState)
    ensures !includeHistory ==> r' == r
    ensures includeHistory ==> r'.decisions == BoundedAppend(r.decisions, d, MAX_DECISIONS)
    ensures includeHistory ==> r'.lastPromoteTs == if d.kind == Promote then Some(d.ts) else r.lastPromoteTs
    ensures includeHistory ==> r'.lastPauseTs == if d.kind == Pause then Some(d.ts) else r.lastPauseTs
    ensures r'.(decisions := r.decisions, lastPromoteTs := r.lastPromoteTs, lastPauseTs := r.lastPauseTs) == r
    ensures WellFormed(r) ==> WellFormed(r')
  {
    if !includeHistory then r
    else
      var r1 := r.(decisions := BoundedAppend(r.decisions, d, MAX_DECISIONS));
      match d.kind
      case Promote => r1.(lastPromoteTs := Some(d.ts))
      case Pause => r1.(lastPauseTs := Some(d.ts))
      case _ => r1
  }

  class Store {
    var rollouts: map<RolloutId, RolloutState>
    var activeId: Option<RolloutId>
    var events: seq<Decision>
    var windows: map<Ring, seq<TimedHealth>>
    /** Source of fresh rollout ids (stands in for `uuid4`). */
    var nextId: RolloutId

    /** What every store operation keeps: one window per ring within its
        capacity, histories within theirs, rollouts filed under their own
        id, ids below the counter, and the active id on a rollout. */
    ghost predicate Valid()
      reads this
    {
      && (forall ring: Ring :: ring in windows && |windows[ring]| <= MAX_WINDOW_LEN)
      && (forall id :: id in rollouts ==>
            rollouts[id].id == id && id < nextId && |rollouts[id].decisions| <= MAX_DECISIONS)
      && (activeId.Some? ==> activeId.value in rollouts)
    }

    /** Every rollout's ring index is one `ring_for` accepts. The store itself
        does not check this; the routes keep it. */
    ghost predicate CursorsInRange()
      reads this
    {
      forall id :: id in rollouts ==> WellFormed(rollouts[id])
    }

    constructor ()
      ensures Valid() && CursorsInRange()
      ensures rollouts == map[] && activeId == None && events == []
      ensures forall ring: Ring :: windows[ring] == []
    {
      rollouts := map[];
      activeId := None;
      events := [];
      var empty: map<Ring, seq<TimedHealth>> := map[Pilot := [], Five := [], TwentyFive := [], All := []];
      forall ring: Ring
        ensures ring in empty && empty[ring] == []
      {
        match ring
        case Pilot =>
        case Five =>
        case TwentyFive =>
        case All =>
      }
      windows := empty;
      nextId := 0;
    }

    /** `record_checkin`: append the sample to its ring's window (evicting the
        oldest entry when full), then prune that window. */
    method RecordCheckin(ring: Ring, health: Health, ts: Option<int>, now: int)
      requires Valid()
      modifies this
      ensures Valid()
      ensures windows == old(windows)[ring :=
        Pruned(BoundedAppend(old(windows)[ring], TimedHealth(ParseTs(ts, now), health), MAX_WINDOW_LEN), Cutoff(now))]
      ensures rollouts == old(rollouts) && activeId == old(activeId)
      ensures events == old(events) && nextId == old(nextId)
    {
      var entry := TimedHealth(ParseTs(ts, now), health);
      ghost var appended := BoundedAppend(windows[ring], entry, MAX_WINDOW_LEN);
      AppendSample(ring, entry);
      ghost var mid := windows;
      assert mid == old(windows)[ring := appended];
      PruneRing(ring, now);
      assert windows == mid[ring := Pruned(appended, Cutoff(now))];
    }

    /** `window.append`: the deque of the ring, capped at its capacity. */
    method AppendSample(ring: Ring, entry: TimedHealth)
      requires Valid()
      modifies this
      ensures Valid()
      ensures windows == old(windows)[ring := BoundedAppend(old(windows)[ring], entry, MAX_WINDOW_LEN)]
      ensures rollouts == old(rollouts) && activeId == old(activeId)
      ensures events == old(events) && nextId == old(nextId)
    {
      windows := windows[ring := BoundedAppend(windows[ring], entry, MAX_WINDOW_LEN)];
    }

    /** `_prune_ring`: pop from the front while the oldest entry is older
        than `now - WINDOW_SECONDS`. */
    method PruneRing(ring: Ring, now: int)
      requires Valid()
      modifies this
      ensures Valid()
      ensures windows == old(windows)[ring := Pruned(old(windows)[ring], Cutoff(now))]
      ensures rollouts == old(rollouts) && activeId == old(activeId)
      ensures events == old(events) && nextId == old(nextId)
    {
      var cutoff := Cutoff(now);
      while windows[ring] != [] && windows[ring][0].ts < cutoff
        invariant Valid()
        invariant windows == old(windows)[ring := windows[ring]]
        invariant Pruned(windows[ring], cutoff) == Pruned(old(windows)[ring], cutoff)
        invariant rollouts == old(rollouts) && activeId == old(activeId)
        invariant events == old(events) && nextId == old(nextId)
        decreases |windows[ring]|
      {
        windows := windows[ring := windows[ring][1..]];
      }
    }

    /** `current_ring_events`: prune, then return the remaining samples. */
    method CurrentRingEvents(ring: Ring, now: int) returns (evs: seq<Health>)
      requires Valid()
      modifies this
      ensures Valid()
      ensures windows == old(windows)[ring := Pruned(old(windows)[ring], Cutoff(now))]
      ensures evs == Healths(Pruned(old(windows)[ring], Cutoff(now)))
      ensures rollouts == old(rollouts) && activeId == old(activeId)
      ensures events == old(events) && nextId == old(nextId)
    {
      PruneRing(ring, now);
      evs := Healths(windows[ring]);
    }

    /** `metrics_for_ring`: the metrics of the pruned window. */
    method MetricsForRing(ring: Ring, now: int) returns (m: WindowMetrics)
      requires Valid()
      modifies this
      ensures Valid()
      ensures windows == old(windows)[ring := Pruned(old(windows)[ring], Cutoff(now))]
      ensures m == ComputeWindowMetrics(Healths(Pruned(old(windows)[ring], Cutoff(now))))
      ensures rollouts == old(rollouts) && activeId == old(activeId)
      ensures events == old(events) && nextId == old(nextId)
    {
      var evs := CurrentRingEvents(ring, now);
      m := ComputeWindowMetrics(evs);
    }

    /** `create_rollout`: a fresh rollout at the first ring, active, with no
        history and no timestamps, which becomes the active rollout. */
    method CreateRollout(targetVersion: string, lastKnownGood: string, now: int) returns (r: RolloutState)
      requires Valid()
      modifies this
      ensures Valid()
      ensures r.id !in old(rollouts)
      ensures r == RolloutState(r.id, targetVersion, lastKnownGood, Active, 0, now, None, None, [])
      ensures rollouts == old(rollouts)[r.id := r]
      ensures activeId == Some(r.id)
      ensures events == old(events) && windows == old(windows)
      ensures old(CursorsInRange()) ==> CursorsInRange()
    {
      r := RolloutState(nextId, targetVersion, lastKnownGood, Active, 0, now, None, None, []);
      rollouts := rollouts[nextId := r];
      activeId := Some(nextId);
      nextId := nextId + 1;
    }

    /** `active_rollout`. */
    function ActiveRollout(): (r: Option<RolloutState>)
      reads this
      requires Valid()
      ensures r.Some? <==> activeId.Some?
      ensures r.Some? ==> r.value == rollouts[activeId.value] && r.value.id == activeId.value
    {
      if activeId.Some? && activeId.value in rollouts then Some(rollouts[activeId.value]) else None
    }

    /** `set_active_rollout`: fails for an unknown id. */
    method SetActiveRollout(id: RolloutId) returns (res: Result<(), StoreError>)
      requires Valid()
      modifies this
      ensures Valid()
      ensures res.Ok? <==> id in rollouts
      ensures activeId == if res.Ok? then Some(id) else old(activeId)
      ensures rollouts == old(rollouts) && events == old(events)
      ensures windows == old(windows) && nextId == old(nextId)
    {
      if id !in rollouts {
        return Err(UnknownRollout);
      }
      activeId := Some(id);
      res := Ok(());
    }

    /** `get_rollout`. */
    function GetRollout(id: RolloutId): (res: Result<RolloutState, StoreError>)
      reads this
      requires Valid()
      ensures res.Ok? <==> id in rollouts
      ensures res.Ok? ==> res.value.id == id && res.value == rollouts[id]
    {
      if id in rollouts then Ok(rollouts[id]) else Err(UnknownRollout)
    }

    /** `update_ring_index`: only the ring index of that rollout changes. */
    method UpdateRingIndex(id: RolloutId, newIndex: int) returns (res: Result<(), StoreError>)
      requires Valid()
      modifies this
      ensures Valid()
      ensures res.Ok? <==> id in old(rollouts)
      ensures rollouts == if res.Ok? then old(rollouts)[id := old(rollouts)[id].(ringIndex := newIndex)] else old(rollouts)
      ensures activeId == old(activeId) && events == old(events)
      ensures windows == old(windows) && nextId == old(nextId)
    {
      if id !in rollouts {
        return Err(UnknownRollout);
      }
      rollouts := rollouts[id := rollouts[id].(ringIndex := newIndex)];
      res := Ok(());
    }

    /** `update_state`: only the state of that rollout changes. */
    method UpdateState(id: RolloutId, state: RolloutStatus) returns (res: Result<(), StoreError>)
      requires Valid()
      modifies this
      ensures Valid()
      ensures res.Ok? <==> id in old(rollouts)
      ensures rollouts == if res.Ok? then old(rollouts)[id := old(rollouts)[id].(state := state)] else old(rollouts)
      ensures activeId == old(activeId) && events == old(events)
      ensures windows == old(windows) && nextId == old(nextId)
      ensures old(CursorsInRange()) ==> CursorsInRange()
    {
      if id !in rollouts {
        return Err(UnknownRollout);
      }
      rollouts := rollouts[id := rollouts[id].(state := state)];
      res := Ok(());
    }

    /** `update_target_version`: only the target version of that rollout changes. */
    method UpdateTargetVersion(id: RolloutId, targetVersion: string) returns (res: Result<(), StoreError>)
      requires Valid()
      modifies this
      ensures Valid()
      ensures res.Ok? <==> id in old(rollouts)
      ensures rollouts == if res.Ok? then old(rollouts)[id := old(rollouts)[id].(targetVersion := targetVersion)] else old(rollouts)
      ensures activeId == old(activeId) && events == old(events)
      ensures windows == old(windows) && nextId == old(nextId)
      ensures old(CursorsInRange()) ==> CursorsInRange()
    {
      if id !in rollouts {
        return Err(UnknownRollout);
      }
      rollouts := rollouts[id := rollouts[id].(targetVersion := targetVersion)];
      res := Ok(());
    }

    /** `promote_cooldown_ready`. */
    function PromoteCooldownReady(id: RolloutId, cooldownSeconds: int, now: int): (res: Result<bool, StoreError>)
      reads this
      requires Valid()
      ensures res.Ok? <==> id in rollouts
      ensures res.Ok? ==> (res.value <==> rollouts[id].lastPromoteTs.None?
                                          || now - rollouts[id].lastPromoteTs.value >= cooldownSeconds)
    {
      if id !in rollouts then Err(UnknownRollout)
      else Ok(CooldownReady(rollouts[id].lastPromoteTs, cooldownSeconds, now))
    }

    /** `append_event`: the decision always goes at the end of the global
        log; the rollout's own record changes as `WithDecision` says. */
    method AppendEvent(id: RolloutId, d: Decision, includeHistory: bool) returns (res: Result<(), StoreError>)
      requires Valid()
      modifies this
      ensures Valid()
      ensures res.Ok? <==> id in old(rollouts)
      ensures res.Ok? ==> rollouts == old(rollouts)[id := WithDecision(old(rollouts)[id], d, includeHistory)]
      ensures res.Ok? ==> events == old(events) + [d]
      ensures res.Err? ==> rollouts == old(rollouts) && events == old(events)
      ensures activeId == old(activeId) && windows == old(windows) && nextId == old(nextId)
      ensures old(CursorsInRange()) ==> CursorsInRange()
    {
      if id !in rollouts {
        return Err(UnknownRollout);
      }
      rollouts := rollouts[id := WithDecision(rollouts[id], d, includeHistory)];
      events := events + [d];
      res := Ok(());
    }

    /** `rollout_decisions`: the rollout's history, oldest first. */
    function RolloutDecisions(id: RolloutId): (res: Result<seq<Decision>, StoreError>)
      reads this
      requires Valid()
      ensures res.Ok? <==> id in rollouts
      ensures res.Ok? ==> res.value == rollouts[id].decisions && |res.value| <= MAX_DECISIONS
    {
      if id in rollouts then Ok(rollouts[id].decisions) else Err(UnknownRollout)
    }
  }

  /** Appending keeps the newest entries: the result is the suffix of
      `s + [x]` of the length the capacity allows. */
  lemma BoundedAppendIsSuffix<T>(s: seq<T>, x: T, cap: nat)
    ensures var r := BoundedAppend(s, x, cap); r == (s + [x])[|s| + 1 - |r|..]
  {
  }

  /** Pruning removes a prefix of the window and nothing else. */
  lemma {:induction false} PrunedIsSuffix(w: seq<TimedHealth>, cutoff: int)
    ensures var r := Pruned(w, cutoff); r == w[|w| - |r|..]
    decreases |w|
  {
    if w != [] && w[0].ts < cutoff {
      PrunedIsSuffix(w[1..], cutoff);
      assert w[1..][|w[1..]| - |Pruned(w, cutoff)|..] == w[|w| - |Pruned(w, cutoff)|..];
    }
  }

  /** Pruning twice at the same time changes nothing the second time. */
  lemma PrunedIdempotent(w: seq<TimedHealth>, cutoff: int)
    ensures Pruned(Pruned(w, cutoff), cutoff) == Pruned(w, cutoff)
  {
  }

  /** When the window's timestamps are in arrival order (non-decreasing),
      pruning leaves no entry older than the cutoff. */
  lemma {:induction false} PrunedSortedIsFresh(w: seq<TimedHealth>, cutoff: int)
    requires forall i, j :: 0 <= i < j < |w| ==> w[i].ts <= w[j].ts
    ensures forall i :: 0 <= i < |Pruned(w, cutoff)| ==> Pruned(w, cutoff)[i].ts >= cutoff
  {
    if w != [] && w[0].ts < cutoff {
      PrunedSortedIsFresh(w[1..], cutoff);
    }
  }

  /** Timestamps come from the devices, so the window need not be in time
      order: an entry older than the cutoff that sits behind a fresh one
      survives pruning. */
  lemma StaleEntryBehindFreshOneSurvives(h: Health)
    ensures var w := [TimedHealth(1000, h), TimedHealth(0, h)];
            Pruned(w, Cutoff(1000)) == w && w[1].ts < Cutoff(1000)
  {
  }
}
