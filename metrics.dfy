/** Window metrics (backend/app/metrics.py): the SLO statistics computed over
    one ring's current health samples, and the warn-tier gates. */
module Metrics {
  import opened Schemas
  import opened Statistics

  const WINDOW_SECONDS: int := 300
  const BOOT_SUCCESS_GATE: real := 0.995
  const CRASH_FREE_GATE: real := 0.990
  const CHECKIN_MS_GATE: real := 500.0

  /** The warn-tier gate names, in declaration order. */
  datatype Breach = BootSuccessRate | CrashFreeMedian | CheckinMsMedian
  {
    /** The name the breach list reports. */
    function Name(): (s: string)
    {
      match this
      case BootSuccessRate => "boot_success_rate"
      case CrashFreeMedian => "crash_free_median"
      case CheckinMsMedian => "checkin_ms_median"
    }

    /** Position in the breach list's fixed order. */
    function Rank(): (k: nat)
    {
      match this
      case BootSuccessRate => 0
      case CrashFreeMedian => 1
      case CheckinMsMedian => 2
    }
  }

  datatype WindowMetrics = WindowMetrics(
    total: nat,
    bootSuccess: real,
    crashFreeMedian: real,
    checkinMsMedian: real,
    breaches: seq<Breach>)
  {
    /** `snapshot()`: the three numeric fields, unchanged. */
    function Snapshot(): (s: Schemas.Snapshot)
      ensures s.bootSuccess == bootSuccess
      ensures s.crashFreeMedian == crashFreeMedian
      ensures s.checkinMsMedian == checkinMsMedian
    {
      Schemas.Snapshot(bootSuccess, crashFreeMedian, checkinMsMedian)
    }
  }

  /** The breach list for three statistics: each gate independently, in the
      order boot, crash, latency, without repetition. */
  function BreachesFor(bootSuccess: real, crashFreeMedian: real, checkinMsMedian: real): (r: seq<Breach>)
    ensures BootSuccessRate in r <==> bootSuccess < BOOT_SUCCESS_GATE
    ensures CrashFreeMedian in r <==> crashFreeMedian < CRASH_FREE_GATE
    ensures CheckinMsMedian in r <==> checkinMsMedian > CHECKIN_MS_GATE
    ensures |r| <= 3
    ensures forall i, j :: 0 <= i < j < |r| ==> r[i].Rank() < r[j].Rank()
  {
    (if bootSuccess < BOOT_SUCCESS_GATE then [BootSuccessRate] else [])
    + (if crashFreeMedian < CRASH_FREE_GATE then [CrashFreeMedian] else [])
    + (if checkinMsMedian > CHECKIN_MS_GATE then [CheckinMsMedian] else [])
  }

  /** The breach list of `m` is the one its own statistics call for. */
  predicate GatesConsistent(m: WindowMetrics)
  {
    m.breaches == BreachesFor(m.bootSuccess, m.crashFreeMedian, m.checkinMsMedian)
  }

  /** Number of samples that booted successfully. */
  function BootOkCount(events: seq<Health>): (n: nat)
    ensures n <= |events|
    ensures n == |events| <==> forall i :: 0 <= i < |events| ==> events[i].bootOk
  {
    if events == [] then 0
    else
      assert forall i :: 1 <= i < |events| ==> events[i] == events[1..][i - 1];
      (if events[0].bootOk then 1 else 0) + BootOkCount(events[1..])
  }

  /** The crash-free rates of a window, in window order: the values
      `median` is taken of for `crash_free_median`. */
  function CrashFrees(events: seq<Health>): (r: seq<real>)
    ensures |r| == |events|
    ensures forall i :: 0 <= i < |events| ==> r[i] == events[i].crashFree
  {
    seq(|events|, i requires 0 <= i < |events| => events[i].crashFree)
  }

  /** The check-in latencies of a window, in window order, as reals: the
      values `median` is taken of for `checkin_ms_median`. */
  function CheckinMillis(events: seq<Health>): (r: seq<real>)
    ensures |r| == |events|
    ensures forall i :: 0 <= i < |events| ==> r[i] == events[i].checkinMs as real
  {
    seq(|events|, i requires 0 <= i < |events| => events[i].checkinMs as real)
  }

  /** The permissive result for an empty window. */
  const EMPTY_WINDOW: WindowMetrics := WindowMetrics(0, 1.0, 1.0, 0.0, [])

  /** `compute_window_metrics`. */
  function ComputeWindowMetrics(events: seq<Health>): (m: WindowMetrics)
    ensures m.total == |events|
    ensures |events| == 0 ==> m == EMPTY_WINDOW
    ensures |events| > 0 ==> m.bootSuccess == BootOkCount(events) as real / |events| as real
    ensures 0.0 <= m.bootSuccess <= 1.0
    ensures |events| > 0 ==> m.crashFreeMedian == Median(CrashFrees(events))
    ensures |events| > 0 ==> m.checkinMsMedian == Median(CheckinMillis(events))
    ensures GatesConsistent(m)
  {
    var total := |events|;
    if total == 0 then EMPTY_WINDOW
    else
      var okCount := BootOkCount(events);
      RatioInUnit(okCount, total);
      var bootSuccess := okCount as real / total as real;
      var crashFreeMedian := Median(CrashFrees(events));
      var checkinMsMedian := Median(CheckinMillis(events));
      WindowMetrics(total, bootSuccess, crashFreeMedian, checkinMsMedian,
                    BreachesFor(bootSuccess, crashFreeMedian, checkinMsMedian))
  }

  /** A count over a positive total gives a ratio in [0, 1]. */
  lemma RatioInUnit(part: nat, total: nat)
    requires 0 < total && part <= total
    ensures 0.0 <= part as real / total as real <= 1.0
    ensures part == total ==> part as real / total as real == 1.0
    ensures part == 0 ==> part as real / total as real == 0.0
  {
    var q := part as real / total as real;
    assert q * total as real == part as real;
  }

  /** Each median lies between the smallest and largest value of its field. */
  lemma MediansBounded(events: seq<Health>)
    requires |events| > 0
    ensures var m := ComputeWindowMetrics(events);
            && Min(CrashFrees(events)) <= m.crashFreeMedian <= Max(CrashFrees(events))
            && Min(CheckinMillis(events)) <= m.checkinMsMedian <= Max(CheckinMillis(events))
  {
  }

  /** A window of identical samples reports that sample's values. */
  lemma UniformWindow(events: seq<Health>, h: Health)
    requires |events| > 0
    requires forall i :: 0 <= i < |events| ==> events[i] == h
    ensures var m := ComputeWindowMetrics(events);
            && m.bootSuccess == (if h.bootOk then 1.0 else 0.0)
            && m.crashFreeMedian == h.crashFree
            && m.checkinMsMedian == h.checkinMs as real
  {
    var m := ComputeWindowMetrics(events);
    MedianOfConstant(CrashFrees(events), h.crashFree);
    MedianOfConstant(CheckinMillis(events), h.checkinMs as real);
    if h.bootOk {
      assert BootOkCount(events) == |events|;
      RatioInUnit(|events|, |events|);
    } else {
      NoBootOk(events);
      RatioInUnit(0, |events|);
    }
  }

  lemma {:induction false} NoBootOk(events: seq<Health>)
    requires forall i :: 0 <= i < |events| ==> !events[i].bootOk
    ensures BootOkCount(events) == 0
  {
    if events != [] {
      NoBootOk(events[1..]);
    }
  }
}
