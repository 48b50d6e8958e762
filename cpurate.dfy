/**
 * The CPU-rate computation of `Model._get_cpu_usage_process`: a cumulative
 * tick count read now, measured against the `(ticks, time)` baseline kept
 * for the same id, gives a percentage of one CPU.  The baselines themselves
 * are fields of the collector (see `Collector.Model.CpuUsageProcess`).
 */
module CpuRate {
  import opened Rounding

  /** `_CLK_TCK_PS`: clock ticks per second. */
  const ClockTicksPerSecond: int := 100

  /** What is remembered per id: cumulative ticks and the clock reading of the last sample. */
  datatype Baseline = Baseline(ticks: int, time: real)

  /** The baseline of an id: the stored one, or `(0, now)` for an id never sampled. */
  function BaselineFor(prev: map<nat, Baseline>, id: nat, now: real): (b: Baseline)
    ensures id !in prev ==> b == Baseline(0, now)
    ensures id in prev ==> b == prev[id]
  {
    if id in prev then prev[id] else Baseline(0, now)
  }

  /** The exact rate: CPU seconds consumed per wall-clock second, in percent. */
  function ExactRate(b: Baseline, total: int, now: real): (rate: real)
    requires now > b.time
    ensures rate * (now - b.time) * ClockTicksPerSecond as real == 100.0 * (total - b.ticks) as real
  {
    var deltaCpuTime := (total - b.ticks) as real / ClockTicksPerSecond as real;
    var elapsedTime := now - b.time;
    deltaCpuTime / elapsedTime * 100.0
  }

  /**
   * The percentage `_get_cpu_usage_process` returns for cumulative ticks
   * `total` read at clock `now`: 0.0 for the first sample of an id and
   * whenever no time has elapsed since the baseline, otherwise the exact rate
   * rounded to hundredths (not clamped: ticks going down give a negative rate).
   */
  function CpuPercent(prev: map<nat, Baseline>, id: nat, total: int, now: real): (pct: real)
    ensures id !in prev ==> pct == 0.0
    ensures id in prev && now <= prev[id].time ==> pct == 0.0
    ensures id in prev && now > prev[id].time ==>
      ExactRate(prev[id], total, now) - 0.005 < pct <= ExactRate(prev[id], total, now) + 0.005
  {
    var b := BaselineFor(prev, id, now);
    if now - b.time <= 0.0 then 0.0 else Round2(ExactRate(b, total, now))
  }

  /**
   * For well-behaved counters (ticks that did not go down, and no more CPU
   * time than wall time elapsed) the percentage lies in [0, 100].
   */
  lemma CpuPercentInRange(prev: map<nat, Baseline>, id: nat, total: int, now: real)
    requires id in prev ==> total >= prev[id].ticks
    requires id in prev && now > prev[id].time ==>
      (total - prev[id].ticks) as real / ClockTicksPerSecond as real <= now - prev[id].time
    ensures 0.0 <= CpuPercent(prev, id, total, now) <= 100.0
  {
    if id in prev && now > prev[id].time {
      var b := prev[id];
      var delta := (total - b.ticks) as real / ClockTicksPerSecond as real;
      var elapsed := now - b.time;
      assert 0.0 <= delta / elapsed <= 1.0 by {
        assert delta <= elapsed * 1.0;
      }
      Round2Percent(delta / elapsed * 100.0);
    }
  }

  /** 150 ticks over 1.5 s of wall time is one full CPU: 100.0. */
  lemma CpuPercentFullCore()
    ensures CpuPercent(map[7 := Baseline(200, 1000.0)], 7, 350, 1001.5) == 100.0
  {
    assert 150.0 / 100.0 / 1.5 * 100.0 == 10000.0 / 100.0;
    Round2OfHundredths(10000);
  }

  /** The result is not clamped: a tick count that went down yields a negative percentage. */
  lemma CpuPercentNotClamped()
    ensures CpuPercent(map[7 := Baseline(200, 0.0)], 7, 100, 1.0) == -100.0
  {
    assert -100.0 / 100.0 / 1.0 * 100.0 == -10000.0 / 100.0;
    Round2OfHundredths(-10000);
  }
}
