# SafeRoll gating engine, modelled in Dafny

SafeRoll rolls a software version out to four rings of devices in turn:
pilot, five, twentyfive, all. Devices check in with a health sample: whether
they booted, their crash-free rate and their check-in latency. The backend
keeps the samples of the last 300 seconds for each ring, at most 1200 per
ring. It computes a boot-success ratio and two medians over them and checks
three SLO gates, plus two stricter critical cutoffs. From those it decides
whether the active rollout is promoted to the next ring, paused or rolled
back.

This project models that engine as it is written:

- the ring catalog (`Rings`);
- the window metrics and their gates (`Metrics`, with the median in `Statistics`);
- the in-memory store, as a class whose fields the operations update (`RolloutStore`);
- the policy evaluation (`Policy`);
- the transitions the route handlers apply (`Transitions`, `RouteSteps`);
- the check-in handler (`HealthRoutes`);
- the operator handlers: promote, pause, rollback and the `should_promote` advice (`RolloutRoutes`).

Each transition is specified twice:

- as a pure step function on a rollout record (`PromoteStep`, `PauseStep`, `RollbackStep`, `AutoTransition`, `Advise`);
- as a method that drives the store through the same sequence of store calls the handler makes. Its postcondition ties the new store state to the step function.

`Scenarios` restates the backend's own tests as lemmas about every window of identical samples.

Modelling choices:

- Time is whole seconds. Every request gets a single `now`.
- Rollout ids come from a counter.
- Ratios and medians are real numbers.
- A not-found rollout is a `NotFound` result, and a refused promote is `Denied`. The source answers these with HTTP 404 and HTTP 400.

Two behaviours of the code are worth knowing, and the model keeps both:

- A sample older than 300 seconds can still be aggregated, although `WindowMetrics` describes its statistics as those of a 5-minute window (backend/app/metrics.py:19). Pruning only pops entries from the front of the window while the front one is too old. Timestamps come from the devices, so the window need not be in time order, and a stale sample behind a fresh one survives (`StaleEntryBehindFreshOneSurvives`). When timestamps do arrive in order, no stale sample survives (`PrunedSortedIsFresh`).
- A denied promote still prunes the ring window. The handler answers 400 "SLO gates failing or cooldown active" (backend/app/routes/rollout.py:56-57) only after the evaluation, and the evaluation prunes the rollout's ring window first (`PromoteRollout`).

## Model

| member | source | states |
|---|---|---|
| Rings.IndexFor | backend/app/rings.py:7-14 | the index of a ring is in 0..3 and the catalog holds that ring there |
| Rings.RingFor | backend/app/rings.py:17-22 | a ring exactly for indices 0..3 (the IndexError otherwise), namely `RINGS[i]`, and `IndexFor` maps it back to `i` |
| Rings.NextRingIndex | backend/app/rings.py:25-30 | a next index exactly for 0 <= i < 3, namely i+1, itself valid; none for the final, larger or negative indices |
| Rings.IsFinalRing | backend/app/rings.py:33-36 | true exactly when i >= 3; on valid indices, exactly when there is no next index |
| Rings.CatalogRoundTrip | backend/app/rings.py:7-22 | the catalog is pilot, five, twentyfive, all in that order; `IndexFor` and `RingFor` are inverse on 0..3 and on every ring |
| Statistics.Insert | backend/app/metrics.py:52-53 | inserting into a sorted sequence keeps it sorted, adds exactly one occurrence of the element, and puts the element or the old first element in front |
| Statistics.Sort | backend/app/metrics.py:52-53 | the result is sorted and a permutation of the input |
| Statistics.SortedWithinBounds | backend/app/metrics.py:52-53 | every element of the sorted order lies between the smallest and the largest value of the data |
| Statistics.Median | backend/app/metrics.py:52-53 | the median of a non-empty sequence lies between its smallest and its largest value |
| Statistics.MedianOfConstant | backend/app/metrics.py:52-53 | the median of identical values is that value |
| Metrics.WindowMetrics.Snapshot | backend/app/metrics.py:27-34 | the snapshot carries exactly the three numeric fields, unchanged |
| Metrics.BreachesFor | backend/app/metrics.py:55-61 | each breach is present exactly when its own gate fails (boot < 0.995, crash median < 0.990, latency median > 500); at most three, no duplicates, in the order boot, crash, latency |
| Metrics.BootOkCount | backend/app/metrics.py:51 | the count of booted samples is at most the total, and equals it exactly when every sample booted |
| Metrics.CrashFrees | backend/app/metrics.py:52 | the crash-free rates of the window, one per sample, in window order |
| Metrics.CheckinMillis | backend/app/metrics.py:53 | the check-in latencies of the window as reals, one per sample, in window order |
| Metrics.ComputeWindowMetrics | backend/app/metrics.py:37-69 | total is the sample count; an empty window gives 1.0, 1.0, 0.0 and no breaches; otherwise boot success is booted/total in [0,1], the medians are the medians of the fields, and the breaches are the failing gates |
| Metrics.RatioInUnit | backend/app/metrics.py:51 | a count over a non-zero total lies in [0,1]; all of them gives 1.0 and none gives 0.0 |
| Metrics.MediansBounded | backend/app/metrics.py:52-53 | each median of a non-empty window lies between the smallest and largest value of its field |
| Metrics.UniformWindow | backend/app/metrics.py:51-53 | on identical samples, boot success is 1.0 or 0.0 and both medians equal the sample's values |
| Metrics.NoBootOk | backend/app/metrics.py:51 | a window in which no sample booted has a booted count of zero |
| RolloutStore.ParseTs | backend/app/store.py:22-30 | a parsed timestamp is kept; an unparseable one becomes the current time |
| RolloutStore.BoundedAppend | backend/app/store.py:63-65 | appending to a capped deque: the length grows by one up to the cap, the new element is last, and a full deque loses exactly its oldest element |
| RolloutStore.BoundedAppendIsSuffix | backend/app/store.py:73 | the capped append keeps the newest suffix of the extended sequence |
| RolloutStore.Pruned | backend/app/store.py:76-82 | pruning drops only entries older than the cutoff from the front, and the remaining front entry (if any) is not older than the cutoff |
| RolloutStore.PrunedIsSuffix | backend/app/store.py:81-82 | the pruned window is a suffix of the window |
| RolloutStore.PrunedIdempotent | backend/app/store.py:76-82 | pruning again at the same time changes nothing |
| RolloutStore.PrunedSortedIsFresh | backend/app/store.py:76-82 | on a window in time order, every remaining entry is within the cutoff |
| RolloutStore.StaleEntryBehindFreshOneSurvives | backend/app/store.py:81-82 | a stale entry behind a fresh one is not pruned |
| RolloutStore.Healths | backend/app/store.py:84-86 | the samples of a window, in window order, one per entry |
| RolloutStore.CooldownReady | backend/app/store.py:138-143 | ready when never promoted, otherwise exactly when the cooldown has elapsed since the last promote |
| RolloutStore.WithDecision | backend/app/store.py:148-163 | with history: the decision enters the history capped at 10, `last_promote_ts` is set exactly on PROMOTE and `last_pause_ts` exactly on PAUSE; without history the record is unchanged; no other field changes; well-formed records stay well-formed |
| RolloutStore.Store.constructor | backend/app/store.py:59-65 | an empty store: no rollouts, no active rollout, no events, an empty window for every ring |
| RolloutStore.Store.RecordCheckin | backend/app/store.py:70-74 | the sample is appended to its ring's capped window, which is then pruned; nothing else changes |
| RolloutStore.Store.AppendSample | backend/app/store.py:72-73 | only the ring's window changes, by the capped append |
| RolloutStore.Store.PruneRing | backend/app/store.py:76-82 | the popping loop leaves the ring's window equal to `Pruned` of it and changes nothing else |
| RolloutStore.Store.CurrentRingEvents | backend/app/store.py:84-86 | prunes the ring's window and returns the samples of the pruned window |
| RolloutStore.Store.MetricsForRing | backend/app/store.py:172-173 | prunes the ring's window and returns the metrics of the pruned window |
| RolloutStore.Store.CreateRollout | backend/app/store.py:91-104 | a fresh id, on ring 0, active, with empty history and no timestamps; it becomes the active rollout; existing rollouts are unchanged |
| RolloutStore.Store.ActiveRollout | backend/app/store.py:106-109 | the record of the active rollout, exactly when one is set |
| RolloutStore.Store.SetActiveRollout | backend/app/store.py:111-114 | fails for an unknown id without change; otherwise only the active rollout id changes |
| RolloutStore.Store.GetRollout | backend/app/store.py:116-117 | the record filed under the id; an error exactly for an unknown id |
| RolloutStore.Store.UpdateRingIndex | backend/app/store.py:122-124 | only the ring index of the named rollout changes; an unknown id fails without change |
| RolloutStore.Store.UpdateState | backend/app/store.py:126-128 | only the state of the named rollout changes; an unknown id fails without change |
| RolloutStore.Store.UpdateTargetVersion | backend/app/store.py:130-132 | only the target version of the named rollout changes; an unknown id fails without change |
| RolloutStore.Store.PromoteCooldownReady | backend/app/store.py:134-143 | ready when the rollout was never promoted or the cooldown has elapsed; an error exactly for an unknown id |
| RolloutStore.Store.AppendEvent | backend/app/store.py:148-163 | the decision goes at the end of the global log and the record changes as `WithDecision` says; an unknown id fails without change |
| RolloutStore.Store.RolloutDecisions | backend/app/store.py:165-167 | the rollout's history, at most 10 entries; an error exactly for an unknown id |
| Policy.NeedsAutoRollback | backend/app/policy.py:66-71 | critical exactly when crash median < 0.950 or boot success < 0.970; on computed metrics a critical window always has a breach |
| Policy.Evaluate | backend/app/policy.py:35-53 | metrics of the window; breaches are the window's; `can_promote` exactly when cooldown ready, no breach and active; `auto_rollback` exactly on a critical window, which always has a breach and never promotes; a paused or completed rollout never promotes |
| Policy.BuildDecision | backend/app/policy.py:55-64 | the decision carries the given kind, reason and ring, the current time and the metrics' snapshot |
| Policy.EvaluateRing | backend/app/policy.py:32-33 | prunes the ring's window and returns its metrics; nothing else changes |
| Policy.EvaluateRollout | backend/app/policy.py:35-53 | fails exactly for an unknown id; otherwise prunes the window of the rollout's current ring and returns `Evaluate` of it; records and log unchanged |
| Transitions.ReasonOr | backend/app/routes/rollout.py:91 | the caller's reason when given and non-empty, the default otherwise |
| Transitions.RingBefore | backend/app/routes/rollout.py:113 | one ring back, never below the first; valid indices stay valid |
| Transitions.PromoteStep | backend/app/routes/rollout.py:59-79 | below the final ring: ring index +1, state unchanged, PROMOTE "SLO gates passing" naming the new ring; at the final ring: completed, index unchanged, PROMOTE "Rollout completed"; either way `last_promote_ts` is now and the decision enters the history |
| Transitions.PauseStep | backend/app/routes/rollout.py:91-96 | from any state: paused, `last_pause_ts` now, PAUSE with the given reason naming the current ring enters the history |
| Transitions.RollbackStep | backend/app/routes/rollout.py:109-119 | from any state: last known good version, one ring back, active; ROLLBACK naming the ring before the rollback enters the history; cooldown timestamps unchanged |
| Transitions.AutoTransition | backend/app/routes/health.py:31-54 | a critical window rolls back, with priority over a breach pause; no breach means no transition; any transition's decision is the newest history entry |
| Transitions.JoinNames | backend/app/routes/rollout.py:140 | the comma-joined breach names are empty exactly when there is no breach |
| Transitions.Advise | backend/app/routes/rollout.py:132-143 | PROMOTE exactly when promotable, else ROLLBACK exactly when critical, else PAUSE exactly on a breach, else ADVISE_NO |
| Transitions.AdviceAgreesWithAutoTransition | backend/app/routes/rollout.py:132-143 | the advice is ROLLBACK or PAUSE exactly when the automatic check-in path would roll back or pause, and PROMOTE or ADVISE_NO exactly when it would do nothing |
| Transitions.RollbackUndoesPromote | backend/app/routes/rollout.py:109-119 | a rollback right after a promote below the final ring returns to the original ring, active, on the last known good version |
| RouteSteps.ResetToLastKnownGood | backend/app/routes/rollout.py:112-114 | the three rollback updates change exactly version, ring index and state of the named rollout |
| RolloutRoutes.GetRolloutDetail | backend/app/routes/rollout.py:40-44 | NotFound exactly for an unknown id; otherwise the record and its history of at most 10 entries |
| RolloutRoutes.PromoteRollout | backend/app/routes/rollout.py:47-79 | NotFound with no change for an unknown id; otherwise the ring window is pruned, and a non-promotable rollout is Denied with records and log unchanged, while a promotable one becomes `PromoteStep` of it with its decision logged |
| RolloutRoutes.PauseRollout | backend/app/routes/rollout.py:82-97 | NotFound with no change for an unknown id; otherwise the rollout becomes `PauseStep` of it and its decision is logged |
| RolloutRoutes.RollbackRollout | backend/app/routes/rollout.py:100-120 | NotFound with no change for an unknown id; otherwise the rollout becomes `RollbackStep` of it and its decision is logged |
| RolloutRoutes.ShouldPromote | backend/app/routes/rollout.py:123-158 | NotFound with no change for an unknown id; otherwise no record changes, exactly one advisory decision is logged, and the answer is `Advise` of the evaluation |
| HealthRoutes.ApplyTarget | backend/app/routes/health.py:57-62 | no advice exactly when there is no rollout or the device already runs its target; otherwise the target |
| HealthRoutes.CheckinStep | backend/app/routes/health.py:26-54 | a transition exactly when the active rollout sits on the check-in's ring and its window breaches; ROLLBACK exactly when critical, PAUSE otherwise, naming that ring; the transition is the automatic one (`AutoTransition`) of that evaluation, so a rollback resets version, ring and state as `RollbackStep` does |
| HealthRoutes.PostCheckin | backend/app/routes/health.py:16-66 | the sample is always recorded; records and log change exactly by `CheckinStep`; the answer names the active rollout, advises its post-transition target and says 30 seconds |
| HealthRoutes.ReactToCheckin | backend/app/routes/health.py:26-55 | after recording: records and log change exactly by `CheckinStep`, and the rollout is answered as it is afterwards |
| HealthRoutes.ApplyAutoTransition | backend/app/routes/health.py:29-54 | evaluating the rollout's own ring and applying `AutoTransition` of the outcome |
| HealthRoutes.AutoRollback | backend/app/routes/health.py:31-43 | the rollout becomes `RollbackStep` of it with the auto-rollback reason; one decision logged |
| HealthRoutes.AutoPause | backend/app/routes/health.py:44-54 | the rollout becomes `PauseStep` of it with the auto-pause reason; one decision logged |
| Scenarios.GreenWindowCanPromote | backend/app/tests/test_policy.py:26-36 | clean samples on a never-promoted active rollout: promotable, no breach, not critical |
| Scenarios.CooldownBlocksDoublePromote | backend/app/tests/test_policy.py:63-76 | the same window 30 s after a promote is not promotable, with no breach and nothing critical |
| Scenarios.CrashFreeBelowGateBreaches | backend/app/tests/test_policy.py:39-49 | a crash median of 0.985 breaches only the crash gate and is not critical |
| Scenarios.CrashFreeBelowCutoffRollsBack | backend/app/tests/test_policy.py:52-60 | a crash median of 0.94 is critical |
| Scenarios.CheckinBreachPauses | backend/app/tests/test_routes.py:48-68 | a check-in of 0.98 crash-free at 600 ms on the active rollout's ring pauses it, and PAUSE is its newest history entry |
| Scenarios.EmptyWindowPromotes | backend/app/policy.py:45-47 | a fresh rollout with no samples is promotable and is advised to promote |

## Left out

- HTTP layer: FastAPI routing, status codes, Pydantic validation, CORS, the dependency singletons and `main.py`. A 404 is `NotFound` and a 400 is `Denied`.
- The frontend and the load simulator. They are presentation, I/O, randomness and concurrency.
- Timestamp parsing: ISO-8601 parsing is library code. A timestamp is an `Option<int>`, where `None` stands for an unparseable string. Decision timestamps are integers too.
- Timestamps without a UTC offset (such as "2025-01-01T00:00:00"): the source parses them to naive datetimes, and pruning raises TypeError when it compares such an entry with its aware cutoff. Pruning compares only the front entry, so the failure starts once the naive entry reaches the front of its ring's window; until then it is aggregated like any other sample. From then on every check-in, evaluation, promote and `should_promote` on that ring fails, until 1200 newer samples evict the entry. A pause or rollback of a rollout on that ring is half-applied: the state change (backend/app/routes/rollout.py:92) and the rollback updates (lines 112-114) are made before the evaluation raises, so no decision enters the history or the event log. The model has only integer timestamps and does not capture this failure.
- Wall clock: the source reads `utcnow()` several times within one request (pruning, cooldown, decision time). The model uses one `now` per request.
- Rollout ids: `uuid4` is replaced by a counter that yields fresh ids.
- Floating point: ratios and medians are exact reals. IEEE rounding is not modelled.
- `statistics.median` internals: the median is specified as the middle of the sorted data, or the mean of the two middle values.
- Concurrency: requests run one at a time.
- `Store.snapshot` and `Store.list_rollouts`: neither is part of the gating logic.
- The `to_schema` projection: handlers return the whole rollout record.
- Fixed parts of the check-in answer (`config_delta`, the retry policy) and the request fields the handler ignores (`device_id`, `last_config`).
- Aliasing of rollout records: the source mutates shared `RolloutState` objects. The model stores records as values in a map. `pause_rollout` returns the record object it fetched before logging; through aliasing that is the logged state, and the model returns that state.
- RolloutStore.Store.UpdateRingIndex: it does not promise a ring index in range. Like the source, the store accepts any index. The in-range invariant (`CursorsInRange`) is kept by the route handlers, which only write indices `ring_for` accepts.
- `PolicyEngine`: it only holds the store. Its operations take the store as a parameter.
