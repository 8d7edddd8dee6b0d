/**
 * `pushLivePoints` of server/public/main.js: the live chart keeps four
 * parallel series (time labels, actual, allowed and station-maximum
 * current), each appended to and then trimmed from the front to the 60
 * newest points.
 */
module DashboardChart {

  const MaxPoints: nat := 60

  /** The newest `n` elements of `s`, in their order. */
  function Window<T>(s: seq<T>, n: nat): (w: seq<T>)
    ensures |w| == if |s| < n then |s| else n
    ensures w == s[|s| - |w|..]
  {
    if |s| <= n then s else s[|s| - n..]
  }

  /** `while (arr.length > maxPoints) arr.shift()` */
  method DropOldest<T>(s: seq<T>, max: nat) returns (r: seq<T>)
    ensures r == Window(s, max)
  {
    r := s;
    while |r| > max
      invariant |r| >= max ==> r == s[|s| - |r|..]
      invariant |r| < max ==> r == s
      decreases |r|
    {
      r := r[1..];
    }
  }

  /** The chart's data, updated in place. */
  class LiveChart {
    var labels: seq<string>
    var actual: seq<real>
    var allowed: seq<real>
    var stationMax: seq<real>

    /** All four series have one entry per point. */
    predicate Lockstep()
      reads this
    {
      |actual| == |labels| && |allowed| == |labels| && |stationMax| == |labels|
    }

    constructor ()
      ensures labels == [] && actual == [] && allowed == [] && stationMax == []
    {
      labels, actual, allowed, stationMax := [], [], [], [];
    }
  }

  /** Appends one point to every series and keeps the newest 60; without a chart nothing happens. */
  method PushLivePoints(chart: LiveChart?, timeLabel: string, outputA: real, allowedA: real, maxA: real)
    modifies chart
    ensures chart != null ==>
      && chart.labels == Window(old(chart.labels) + [timeLabel], MaxPoints)
      && chart.actual == Window(old(chart.actual) + [outputA], MaxPoints)
      && chart.allowed == Window(old(chart.allowed) + [allowedA], MaxPoints)
      && chart.stationMax == Window(old(chart.stationMax) + [maxA], MaxPoints)
    ensures chart != null && old(chart.Lockstep()) ==> chart.Lockstep()
  {
    if chart == null {
      return;
    }
    if chart.Lockstep() {
      PushKeepsLockstep(chart.labels, chart.actual, chart.allowed, chart.stationMax, timeLabel, outputA, allowedA, maxA);
    }
    chart.labels := chart.labels + [timeLabel];
    chart.actual := chart.actual + [outputA];
    chart.allowed := chart.allowed + [allowedA];
    chart.stationMax := chart.stationMax + [maxA];
    chart.labels := DropOldest(chart.labels, MaxPoints);
    chart.actual := DropOldest(chart.actual, MaxPoints);
    chart.allowed := DropOldest(chart.allowed, MaxPoints);
    chart.stationMax := DropOldest(chart.stationMax, MaxPoints);
  }

  /**
   * After a push the series has min(old + 1, 60) points, the new point is
   * the last one, and the points before it are the newest of the old ones in
   * their old order, the oldest dropped first.
   */
  lemma PushedWindow<T>(series: seq<T>, x: T)
    ensures var w := Window(series + [x], MaxPoints);
      && |w| == (if |series| + 1 < MaxPoints then |series| + 1 else MaxPoints)
      && w[|w| - 1] == x
      && w[..|w| - 1] == series[|series| - (|w| - 1)..]
  {
    var s := series + [x];
    var w := Window(s, MaxPoints);
    assert w == s[|s| - |w|..];
    assert w[..|w| - 1] == s[|s| - |w|..|s| - 1];
    assert s[..|s| - 1] == series;
  }

  /** A series that is already full loses exactly its oldest point. */
  lemma FullWindowDropsOldest<T>(series: seq<T>, x: T)
    requires |series| == MaxPoints
    ensures Window(series + [x], MaxPoints) == series[1..] + [x]
  {
  }

  /** Pushing keeps the four series in lockstep. */
  lemma PushKeepsLockstep(labels: seq<string>, actual: seq<real>, allowed: seq<real>, stationMax: seq<real>,
                          timeLabel: string, a: real, b: real, c: real)
    requires |actual| == |labels| && |allowed| == |labels| && |stationMax| == |labels|
    ensures var n := |Window(labels + [timeLabel], MaxPoints)|;
      && |Window(actual + [a], MaxPoints)| == n
      && |Window(allowed + [b], MaxPoints)| == n
      && |Window(stationMax + [c], MaxPoints)| == n
  {
  }
}
