/** Store update sequences that more than one route handler performs. */
module RouteSteps {
  import opened Wrappers
  import opened Schemas
  import opened Rings
  import opened RolloutStore
  import opened Transitions

  /** The three store updates of a rollback, in the handlers' order
      (backend/app/routes/rollout.py:112-114 and
      backend/app/routes/health.py:32-34): back to the last known good
      version, one ring back (not below the first), active again. */
  method ResetToLastKnownGood(store: Store, id: RolloutId)
    requires store.Valid() && store.CursorsInRange() && id in store.rollouts
    modifies store
    ensures store.Valid() && store.CursorsInRange()
    ensures var r := old(store.rollouts)[id];
      store.rollouts == old(store.rollouts)[id := r.(targetVersion := r.lastKnownGood,
                                                     ringIndex := RingBefore(r.ringIndex),
                                                     state := Active)]
    ensures store.activeId == old(store.activeId) && store.events == old(store.events)
    ensures store.windows == old(store.windows) && store.nextId == old(store.nextId)
  {
    var r := store.GetRollout(id).value;
    var _ := store.UpdateTargetVersion(id, r.lastKnownGood);
    var _ := store.UpdateRingIndex(id, RingBefore(r.ringIndex));
    var _ := store.UpdateState(id, Active);
  }

  /** Writing a key twice keeps the second value. */
  lemma OverwriteTwice<K, V>(m: map<K, V>, k: K, a: V, b: V)
    ensures m[k := a][k := b] == m[k := b]
  {
  }

  /** Writing back a key's own value changes nothing. */
  lemma OverwriteSame<K, V>(m: map<K, V>, k: K)
    requires k in m
    ensures m[k := m[k]] == m
  {
  }
}
