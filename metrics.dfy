/**
 * SkyflowMetrics and computeLatencyStats (lambda/skyflow.go). The struct is
 * owned by a single invocation, so its in-place field updates are modelled as
 * record updates. DedupPct (floating point) and SkyflowWallMs (a clock
 * reading) are not part of this model.
 */
module Metrics {
  import opened Chunking

  datatype SkyflowMetrics = SkyflowMetrics(
    totalRows: int,
    uniqueTokens: int,
    skyflowCalls: int,
    callMinMs: int,
    callMaxMs: int,
    callAvgMs: int,
    errors: int)

  /** The metrics of a fresh invocation over n rows. */
  function InitialMetrics(n: nat): SkyflowMetrics
  {
    SkyflowMetrics(n, 0, 0, 0, 0, 0, 0)
  }

  /** The latencies of n sub-batch calls, in dispatch order; callMs(k) is the k-th call's duration. */
  function Latencies(callMs: nat -> nat, n: nat): (s: seq<nat>)
    ensures |s| == n
  {
    if n == 0 then [] else Latencies(callMs, n - 1) + [callMs(n - 1)]
  }

  function Sum(s: seq<nat>): nat
  {
    if |s| == 0 then 0 else Sum(s[..|s| - 1]) + s[|s| - 1]
  }

  function MinOf(s: seq<nat>): nat
    requires |s| > 0
  {
    if |s| == 1 then s[0]
    else var m := MinOf(s[..|s| - 1]); if s[|s| - 1] < m then s[|s| - 1] else m
  }

  function MaxOf(s: seq<nat>): nat
    requires |s| > 0
  {
    if |s| == 1 then s[0]
    else var m := MaxOf(s[..|s| - 1]); if s[|s| - 1] > m then s[|s| - 1] else m
  }

  /** What computeLatencyStats leaves in m: untouched for no calls, else min, integer mean and max. */
  function LatencyStats(m: SkyflowMetrics, latencies: seq<nat>): SkyflowMetrics
  {
    if |latencies| == 0 then m
    else m.(callMinMs := MinOf(latencies), callMaxMs := MaxOf(latencies),
            callAvgMs := Sum(latencies) / |latencies|)
  }

  /** The minimum and maximum are latencies of the list and bound every latency. */
  lemma {:induction false} MinMaxBound(s: seq<nat>)
    requires |s| > 0
    ensures MinOf(s) in s && MaxOf(s) in s
    ensures forall i | 0 <= i < |s| :: MinOf(s) <= s[i] <= MaxOf(s)
    decreases |s|
  {
    if |s| > 1 {
      var n := |s| - 1;
      MinMaxBound(s[..n]);
      assert forall i | 0 <= i < n :: s[i] == s[..n][i];
    }
  }

  /** The sum of n latencies lies between n times the minimum and n times the maximum. */
  lemma {:induction false} SumBound(s: seq<nat>)
    requires |s| > 0
    ensures |s| * MinOf(s) <= Sum(s) <= |s| * MaxOf(s)
    decreases |s|
  {
    if |s| > 1 {
      var n := |s| - 1;
      var init := s[..n];
      SumBound(init);
      assert Sum(s) == Sum(init) + s[n];
      SumStep(n, MinOf(s), MaxOf(s), MinOf(init), MaxOf(init), Sum(init), s[n]);
    }
  }

  lemma SumStep(n: nat, lo: nat, hi: nat, a: nat, b: nat, sum: nat, x: nat)
    requires n * a <= sum <= n * b
    requires lo <= a && lo <= x && b <= hi && x <= hi
    ensures (n + 1) * lo <= sum + x <= (n + 1) * hi
  {
    MulMono(lo, a, n);
    MulMono(b, hi, n);
  }

  /**
   * Latency statistics: with no calls nothing changes; otherwise min and max
   * are latencies of the list, every latency lies between them, and the
   * integer mean lies between them too. Only the three latency fields change.
   */
  lemma LatencyStatsBounds(m: SkyflowMetrics, latencies: seq<nat>)
    ensures |latencies| == 0 ==> LatencyStats(m, latencies) == m
    ensures var r := LatencyStats(m, latencies);
      && r.totalRows == m.totalRows && r.uniqueTokens == m.uniqueTokens
      && r.skyflowCalls == m.skyflowCalls && r.errors == m.errors
    ensures |latencies| > 0 ==>
      var r := LatencyStats(m, latencies);
      && r.callMinMs in latencies && r.callMaxMs in latencies
      && (forall i | 0 <= i < |latencies| :: r.callMinMs <= latencies[i] <= r.callMaxMs)
      && r.callMinMs <= r.callAvgMs <= r.callMaxMs
  {
    if |latencies| > 0 {
      var n := |latencies|;
      MinMaxBound(latencies);
      SumBound(latencies);
      DivBounds(Sum(latencies), n, MinOf(latencies), MaxOf(latencies));
    }
  }

  lemma MulLess(a: nat, b: nat, n: nat)
    requires n * a < n * b
    ensures a < b
  {
    if b <= a {
      MulMono(b, a, n);
    }
  }

  lemma DivBounds(sum: nat, n: nat, lo: nat, hi: nat)
    requires n > 0 && n * lo <= sum <= n * hi
    ensures lo <= sum / n <= hi
  {
    var q, r := sum / n, sum % n;
    assert sum == n * q + r && r < n;
    assert n * (q + 1) == n * q + n;
    assert n * (hi + 1) == n * hi + n;
    MulLess(lo, q + 1, n);
    MulLess(q, hi + 1, n);
  }

  /**
   * computeLatencyStats: one pass over the latencies accumulating the sum and
   * updating the minimum and maximum, then the truncated mean.
   */
  method ComputeLatencyStats(m: SkyflowMetrics, latencies: seq<nat>) returns (r: SkyflowMetrics)
    ensures r == LatencyStats(m, latencies)
  {
    r := m;
    if |latencies| == 0 {
      return;
    }
    var sum := 0;
    r := r.(callMinMs := latencies[0], callMaxMs := latencies[0]);
    for i := 0 to |latencies|
      invariant sum == Sum(latencies[..i])
      invariant r.callMinMs == if i == 0 then latencies[0] else MinOf(latencies[..i])
      invariant r.callMaxMs == if i == 0 then latencies[0] else MaxOf(latencies[..i])
      invariant r == m.(callMinMs := r.callMinMs, callMaxMs := r.callMaxMs)
    {
      var l := latencies[i];
      assert latencies[..i + 1][..i] == latencies[..i];
      sum := sum + l;
      if l < r.callMinMs {
        r := r.(callMinMs := l);
      }
      if l > r.callMaxMs {
        r := r.(callMaxMs := l);
      }
    }
    assert latencies[..|latencies|] == latencies;
    r := r.(callAvgMs := sum / |latencies|);
  }
}
