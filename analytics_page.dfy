/** The analytics page (app/analytics/page.tsx): usage and performance answers turned
    into chart rows and summary figures. */
module AnalyticsPage {
  import opened Wrappers
  import opened Text
  import opened Types

  /** `Server ${id.slice(-n)}` */
  function ServerLabel(id: string, n: nat): (s: string)
    requires n > 0
    ensures |s| == 7 + (if |id| < n then |id| else n)
    ensures s[..7] == "Server " && id == id[..|id| - (|s| - 7)] + s[7..]
  {
    "Server " + TakeLast(id, n)
  }

  datatype ConnectionBar = ConnectionBar(server: string, connections: int)

  function Bar(c: ConnectionCount): ConnectionBar {
    ConnectionBar(ServerLabel(c.server_id, 4), c.connections)
  }

  /** `usage?.connections_per_server?.map(...) || []`: one bar per server, in order,
      labelled with the last four characters of its id; no bars without data. */
  function ConnectionData(usage: Option<AnalyticsUsage>): (bars: seq<ConnectionBar>)
    ensures usage.None? || usage.value.connections_per_server.None? ==> bars == []
    ensures usage.Some? && usage.value.connections_per_server.Some? ==>
      var cs := usage.value.connections_per_server.value;
      |bars| == |cs| &&
      forall i :: 0 <= i < |cs| ==>
        bars[i].server == ServerLabel(cs[i].server_id, 4) && bars[i].connections == cs[i].connections
  {
    if usage.Some? && usage.value.connections_per_server.Some? then
      var cs := usage.value.connections_per_server.value;
      seq(|cs|, i requires 0 <= i < |cs| => Bar(cs[i]))
    else []
  }

  function TotalConnections(bars: seq<ConnectionBar>): int {
    if bars == [] then 0 else bars[0].connections + TotalConnections(bars[1..])
  }

  /** `Math.round(sum / length || 0)`: the mean connection count rounded half up,
      and 0 when there are no bars (where the division yields NaN). */
  function ServerLoad(bars: seq<ConnectionBar>): (load: int)
    ensures bars == [] ==> load == 0
    ensures bars != [] ==>
      var mean := TotalConnections(bars) as real / |bars| as real;
      load as real - 0.5 <= mean < load as real + 0.5
  {
    if bars == [] then 0
    else (TotalConnections(bars) as real / |bars| as real + 0.5).Floor
  }

  /** Rounding the mean of equal loads gives that load back. */
  lemma {:induction false} EqualLoadsRoundToThemselves(bars: seq<ConnectionBar>, c: int)
    requires bars != []
    requires forall i :: 0 <= i < |bars| ==> bars[i].connections == c
    ensures ServerLoad(bars) == c
  {
    TotalOfEqual(bars, c);
    var n := |bars| as real;
    assert TotalConnections(bars) as real / n == c as real;
  }

  lemma {:induction false} TotalOfEqual(bars: seq<ConnectionBar>, c: int)
    requires forall i :: 0 <= i < |bars| ==> bars[i].connections == c
    ensures TotalConnections(bars) == |bars| * c
  {
    if bars != [] {
      TotalOfEqual(bars[1..], c);
    }
  }

  /** The rounded mean never leaves the range of the servers' connection counts. */
  lemma {:induction false} LoadWithinRange(bars: seq<ConnectionBar>, lo: int, hi: int)
    requires bars != []
    requires forall i :: 0 <= i < |bars| ==> lo <= bars[i].connections <= hi
    ensures lo <= ServerLoad(bars) <= hi
  {
    TotalWithinRange(bars, lo, hi);
    var n := |bars|;
    var t := TotalConnections(bars);
    ProductAsReal(n, lo);
    ProductAsReal(n, hi);
    MeanWithinRange(t as real, n as real, lo as real, hi as real);
    RoundedWithinRange(t as real / n as real, ServerLoad(bars), lo, hi);
  }

  lemma ProductAsReal(a: int, b: int)
    ensures (a * b) as real == a as real * b as real
  {
  }

  lemma MeanWithinRange(t: real, n: real, lo: real, hi: real)
    requires n > 0.0 && n * lo <= t <= n * hi
    ensures lo <= t / n <= hi
  {
    assert t / n * n == t;
  }

  /** An integer within half of a value in [lo, hi] is itself in [lo, hi]. */
  lemma RoundedWithinRange(mean: real, load: int, lo: int, hi: int)
    requires load as real - 0.5 <= mean < load as real + 0.5
    requires lo as real <= mean <= hi as real
    ensures lo <= load <= hi
  {
  }

  lemma {:induction false} TotalWithinRange(bars: seq<ConnectionBar>, lo: int, hi: int)
    requires forall i :: 0 <= i < |bars| ==> lo <= bars[i].connections <= hi
    ensures |bars| * lo <= TotalConnections(bars) <= |bars| * hi
  {
    if bars != [] {
      TotalWithinRange(bars[1..], lo, hi);
    }
  }

  datatype PerformancePoint = PerformancePoint(latency: real, uptime: real)

  /** `performance?.map(...) || []`: latency and uptime of each sample, in order. */
  function PerformanceData(performance: Option<seq<AnalyticsPerformance>>): (pts: seq<PerformancePoint>)
    ensures performance.None? ==> pts == []
    ensures performance.Some? ==>
      |pts| == |performance.value| &&
      forall i :: 0 <= i < |pts| ==>
        pts[i].latency == performance.value[i].latency_ms && pts[i].uptime == performance.value[i].uptime_percentage
  {
    if performance.None? then []
    else
      var ps := performance.value;
      seq(|ps|, i requires 0 <= i < |ps| => PerformancePoint(ps[i].latency_ms, ps[i].uptime_percentage))
  }

  /** The details list names each server by the last eight characters of its id. */
  function PerformanceTitle(p: AnalyticsPerformance): (s: string)
    ensures s == ServerLabel(p.server_id, 8)
    ensures |p.server_id| >= 8 ==> |s| == 15
  {
    ServerLabel(p.server_id, 8)
  }

  /** `usage?.active_users || 0` */
  function ActiveUsers(usage: Option<AnalyticsUsage>): (n: int)
    ensures usage.None? ==> n == 0
    ensures usage.Some? ==> n == usage.value.active_users
  {
    if usage.Some? && usage.value.active_users != 0 then usage.value.active_users else 0
  }

  /** `usage?.total_bandwidth || 0` */
  function TotalBandwidth(usage: Option<AnalyticsUsage>): (gb: real)
    ensures usage.None? ==> gb == 0.0
    ensures usage.Some? ==> gb == usage.value.total_bandwidth
  {
    if usage.Some? && usage.value.total_bandwidth != 0.0 then usage.value.total_bandwidth else 0.0
  }
}
