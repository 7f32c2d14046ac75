/** The health assessment at the end of `get_system_stats`. The counters themselves come
    from the OS and are inputs here. */
module SystemStats {

  /** The two readings the health rules look at, in percent. */
  datatype Metrics = Metrics(cpuPercent: real, memoryPercent: real)

  datatype StatsIssue = HighCpuUsage | HighMemoryUsage

  datatype StatsHealth = Healthy | AttentionNeeded

  /** One issue per reading above 90 percent, CPU first; the two checks are independent. */
  function HealthIssues(m: Metrics): (r: seq<StatsIssue>)
    ensures HighCpuUsage in r <==> m.cpuPercent > 90.0
    ensures HighMemoryUsage in r <==> m.memoryPercent > 90.0
    ensures |r| <= 2
    ensures |r| == 2 ==> r == [HighCpuUsage, HighMemoryUsage]
  {
    (if m.cpuPercent > 90.0 then [HighCpuUsage] else [])
      + (if m.memoryPercent > 90.0 then [HighMemoryUsage] else [])
  }

  /** Healthy when no issue was raised. */
  function HealthStatus(m: Metrics): (s: StatsHealth)
    ensures s == Healthy <==> m.cpuPercent <= 90.0 && m.memoryPercent <= 90.0
  {
    if HealthIssues(m) == [] then Healthy else AttentionNeeded
  }
}
