/** `system_health_check`: one score for the host, from the CPU and memory readings and the
    disk analyses of its mount points, and the status label of that score. */
module HealthCheck {
  import opened Wrappers
  import opened SystemStats
  import DiskUsage

  datatype Issue =
    | HighCpu
    | ElevatedCpu
    | CriticalMemory
    | HighMemory
    | CriticalDiskSpace(drives: nat)
    | LowDiskSpace(drives: nat)

  datatype Advice =
    | InvestigateCpuProcesses
    | CloseApplicationsOrAddRam
    | ImmediateCleanupOfCriticalDrives
    | ConsiderCleanupOperations

  datatype Status = Excellent | Good | Fair | Poor | Critical

  datatype Resource = Cpu | Memory | Disk

  /** One penalty rule that fired: what it is about, the points it takes off the score, the
      issue it reports and the advice it adds, if any. */
  datatype Penalty = Penalty(resource: Resource, points: nat, issue: Issue, advice: Option<Advice>)

  datatype HealthReport = HealthReport(
    score: int,
    status: Status,
    issues: seq<Issue>,
    recommendations: seq<Advice>,
    disks: seq<DiskUsage.Assessment>)

  /** The analyses that did not end in an error, in order. */
  function Successful(analyses: seq<Result<DiskUsage.Assessment>>): (r: seq<DiskUsage.Assessment>)
    ensures forall d :: d in r <==> Ok(d) in analyses
  {
    if analyses == [] then []
    else
      var last := analyses[|analyses| - 1];
      Successful(analyses[..|analyses| - 1]) + (if last.Ok? then [last.value] else [])
  }

  /** How many disks are used above `threshold` percent. */
  function CountAbove(disks: seq<DiskUsage.Assessment>, threshold: real): (n: nat)
    ensures n <= |disks|
    ensures n > 0 <==> exists d :: d in disks && d.usagePercent > threshold
  {
    if disks == [] then 0
    else (if disks[0].usagePercent > threshold then 1 else 0) + CountAbove(disks[1..], threshold)
  }

  /** The CPU rule: two exclusive tiers, checked only when the statistics are available. */
  function CpuRule(stats: Option<Metrics>): (r: seq<Penalty>)
    ensures |r| <= 1
    ensures r != [] <==> stats.Some? && stats.value.cpuPercent > 70.0
    ensures r != [] ==> r[0].resource == Cpu && r[0].points == (if stats.value.cpuPercent > 90.0 then 20 else 10)
  {
    if stats.None? then []
    else if stats.value.cpuPercent > 90.0 then [Penalty(Cpu, 20, HighCpu, Some(InvestigateCpuProcesses))]
    else if stats.value.cpuPercent > 70.0 then [Penalty(Cpu, 10, ElevatedCpu, None)]
    else []
  }

  /** The memory rule: two exclusive tiers, checked only when the statistics are available. */
  function MemoryRule(stats: Option<Metrics>): (r: seq<Penalty>)
    ensures |r| <= 1
    ensures r != [] <==> stats.Some? && stats.value.memoryPercent > 80.0
    ensures r != [] ==> r[0].resource == Memory && r[0].points == (if stats.value.memoryPercent > 90.0 then 25 else 15)
  {
    if stats.None? then []
    else if stats.value.memoryPercent > 90.0 then [Penalty(Memory, 25, CriticalMemory, Some(CloseApplicationsOrAddRam))]
    else if stats.value.memoryPercent > 80.0 then [Penalty(Memory, 15, HighMemory, None)]
    else []
  }

  /** The disk rule: a disk above 90 percent takes precedence over one above 80 percent. */
  function DiskRule(disks: seq<DiskUsage.Assessment>): (r: seq<Penalty>)
    ensures |r| <= 1
    ensures r != [] <==> exists d :: d in disks && d.usagePercent > 80.0
    ensures r != [] ==>
      r[0].resource == Disk && r[0].points == (if exists d :: d in disks && d.usagePercent > 90.0 then 30 else 15)
  {
    var critical := CountAbove(disks, 90.0);
    var warning := CountAbove(disks, 80.0);
    if critical > 0 then [Penalty(Disk, 30, CriticalDiskSpace(critical), Some(ImmediateCleanupOfCriticalDrives))]
    else if warning > 0 then [Penalty(Disk, 15, LowDiskSpace(warning), Some(ConsiderCleanupOperations))]
    else []
  }

  /** The rules that fire, in the order they are checked. */
  function Penalties(stats: Option<Metrics>, disks: seq<DiskUsage.Assessment>): seq<Penalty>
  {
    CpuRule(stats) + MemoryRule(stats) + DiskRule(disks)
  }

  function TotalPoints(ps: seq<Penalty>): nat
  {
    if ps == [] then 0 else ps[0].points + TotalPoints(ps[1..])
  }

  function IssuesOf(ps: seq<Penalty>): seq<Issue>
  {
    if ps == [] then [] else [ps[0].issue] + IssuesOf(ps[1..])
  }

  function AdviceOf(ps: seq<Penalty>): seq<Advice>
  {
    if ps == [] then [] else (if ps[0].advice.Some? then [ps[0].advice.value] else []) + AdviceOf(ps[1..])
  }

  function ResourceOrder(r: Resource): nat
  {
    match r
    case Cpu => 0
    case Memory => 1
    case Disk => 2
  }

  /** The status ladder over the score. */
  function StatusOf(score: int): (s: Status)
    ensures s == Excellent <==> score >= 90
    ensures s == Good <==> 70 <= score < 90
    ensures s == Fair <==> 50 <= score < 70
    ensures s == Poor <==> 30 <= score < 50
    ensures s == Critical <==> score < 30
  {
    if score >= 90 then Excellent
    else if score >= 70 then Good
    else if score >= 50 then Fair
    else if score >= 30 then Poor
    else Critical
  }

  function Grade(s: Status): nat
  {
    match s
    case Critical => 0
    case Poor => 1
    case Fair => 2
    case Good => 3
    case Excellent => 4
  }

  /** A higher score never gives a worse status. */
  lemma StatusMonotone(a: int, b: int)
    requires a <= b
    ensures Grade(StatusOf(a)) <= Grade(StatusOf(b))
  {
  }

  lemma {:induction false} TotalPointsAppend(a: seq<Penalty>, b: seq<Penalty>)
    ensures TotalPoints(a + b) == TotalPoints(a) + TotalPoints(b)
  {
    if a == [] {
      assert a + b == b;
    } else {
      assert (a + b)[1..] == a[1..] + b;
      TotalPointsAppend(a[1..], b);
    }
  }

  /** Each resource is penalised at most once, CPU before memory before disk, and the
      penalties together take between 0 and 75 points off. */
  lemma PenaltiesOncePerResource(stats: Option<Metrics>, disks: seq<DiskUsage.Assessment>)
    ensures var ps := Penalties(stats, disks);
      && |ps| <= 3
      && (forall i, j :: 0 <= i < j < |ps| ==> ResourceOrder(ps[i].resource) < ResourceOrder(ps[j].resource))
      && 0 <= TotalPoints(ps) <= 75
  {
    var c, m, d := CpuRule(stats), MemoryRule(stats), DiskRule(disks);
    TotalPointsAppend(c, m);
    TotalPointsAppend(c + m, d);
    assert TotalPoints(c) <= 20 && TotalPoints(m) <= 25 && TotalPoints(d) <= 30;
  }

  /** A worked case: CPU at 95 percent, memory at 50, no disk data, scores 80, "good". */
  lemma HighCpuOnlyExample()
    ensures var ps := Penalties(Some(Metrics(95.0, 50.0)), []);
      100 - TotalPoints(ps) == 80 && StatusOf(100 - TotalPoints(ps)) == Good
  {
    assert Penalties(Some(Metrics(95.0, 50.0)), []) == [Penalty(Cpu, 20, HighCpu, Some(InvestigateCpuProcesses))];
  }

  /** The disk analyses that succeeded, gathered in order. */
  method CollectDisks(analyses: seq<Result<DiskUsage.Assessment>>) returns (disks: seq<DiskUsage.Assessment>)
    ensures disks == Successful(analyses)
  {
    disks := [];
    for i := 0 to |analyses|
      invariant disks == Successful(analyses[..i])
    {
      assert analyses[..i + 1][..i] == analyses[..i];
      if analyses[i].Ok? {
        disks := disks + [analyses[i].value];
      }
    }
    assert analyses[..|analyses|] == analyses;
  }

  /** The CPU step: the score loses the tier's points, and its issue and advice are added. */
  method CheckCpu(stats: Option<Metrics>, score: int, issues: seq<Issue>, recommendations: seq<Advice>)
    returns (score': int, issues': seq<Issue>, recommendations': seq<Advice>)
    ensures score' == score - TotalPoints(CpuRule(stats))
    ensures issues' == issues + IssuesOf(CpuRule(stats))
    ensures recommendations' == recommendations + AdviceOf(CpuRule(stats))
  {
    score', issues', recommendations' := score, issues, recommendations;
    if stats.Some? {
      var cpu := stats.value.cpuPercent;
      if cpu > 90.0 {
        score' := score' - 20;
        issues' := issues' + [HighCpu];
        recommendations' := recommendations' + [InvestigateCpuProcesses];
      } else if cpu > 70.0 {
        score' := score' - 10;
        issues' := issues' + [ElevatedCpu];
      }
    }
    RuleFacts(CpuRule(stats));
  }

  /** The memory step: the score loses the tier's points, and its issue and advice are added. */
  method CheckMemory(stats: Option<Metrics>, score: int, issues: seq<Issue>, recommendations: seq<Advice>)
    returns (score': int, issues': seq<Issue>, recommendations': seq<Advice>)
    ensures score' == score - TotalPoints(MemoryRule(stats))
    ensures issues' == issues + IssuesOf(MemoryRule(stats))
    ensures recommendations' == recommendations + AdviceOf(MemoryRule(stats))
  {
    score', issues', recommendations' := score, issues, recommendations;
    if stats.Some? {
      var memory := stats.value.memoryPercent;
      if memory > 90.0 {
        score' := score' - 25;
        issues' := issues' + [CriticalMemory];
        recommendations' := recommendations' + [CloseApplicationsOrAddRam];
      } else if memory > 80.0 {
        score' := score' - 15;
        issues' := issues' + [HighMemory];
      }
    }
    RuleFacts(MemoryRule(stats));
  }

  /** The disk step: the score loses the points of the worst tier any disk reaches, and its
      issue, with the number of disks in that tier, and its advice are added. */
  method CheckDisks(disks: seq<DiskUsage.Assessment>, score: int, issues: seq<Issue>, recommendations: seq<Advice>)
    returns (score': int, issues': seq<Issue>, recommendations': seq<Advice>)
    ensures score' == score - TotalPoints(DiskRule(disks))
    ensures issues' == issues + IssuesOf(DiskRule(disks))
    ensures recommendations' == recommendations + AdviceOf(DiskRule(disks))
  {
    score', issues', recommendations' := score, issues, recommendations;
    var criticalDisks := CountAbove(disks, 90.0);
    var warningDisks := CountAbove(disks, 80.0);
    if criticalDisks > 0 {
      score' := score' - 30;
      issues' := issues' + [CriticalDiskSpace(criticalDisks)];
      recommendations' := recommendations' + [ImmediateCleanupOfCriticalDrives];
    } else if warningDisks > 0 {
      score' := score' - 15;
      issues' := issues' + [LowDiskSpace(warningDisks)];
      recommendations' := recommendations' + [ConsiderCleanupOperations];
    }
    RuleFacts(DiskRule(disks));
  }

  /** The health check: the score starts at 100 and each rule that fires takes its points
      off; the status is read off the final score. */
  method SystemHealthCheck(stats: Option<Metrics>, analyses: seq<Result<DiskUsage.Assessment>>)
    returns (r: HealthReport)
    ensures r.disks == Successful(analyses)
    ensures r.score == 100 - TotalPoints(Penalties(stats, r.disks))
    ensures 25 <= r.score <= 100
    ensures r.issues == IssuesOf(Penalties(stats, r.disks))
    ensures r.recommendations == AdviceOf(Penalties(stats, r.disks))
    ensures r.status == StatusOf(r.score)
  {
    var disks := CollectDisks(analyses);
    var score, issues, recommendations := CheckCpu(stats, 100, [], []);
    score, issues, recommendations := CheckMemory(stats, score, issues, recommendations);
    score, issues, recommendations := CheckDisks(disks, score, issues, recommendations);
    ThreeRules(CpuRule(stats), MemoryRule(stats), DiskRule(disks));
    PenaltiesOncePerResource(stats, disks);
    r := HealthReport(score, StatusOf(score), issues, recommendations, disks);
  }

  /** What a single rule, or none, contributes. */
  lemma RuleFacts(a: seq<Penalty>)
    requires |a| <= 1
    ensures a == [] ==> TotalPoints(a) == 0 && IssuesOf(a) == [] && AdviceOf(a) == []
    ensures a != [] ==>
      && TotalPoints(a) == a[0].points
      && IssuesOf(a) == [a[0].issue]
      && AdviceOf(a) == (if a[0].advice.Some? then [a[0].advice.value] else [])
  {
  }

  /** Firing three rules one after the other, starting from no issue and no advice. */
  lemma ThreeRules(c: seq<Penalty>, m: seq<Penalty>, d: seq<Penalty>)
    ensures TotalPoints(c + m + d) == TotalPoints(c) + TotalPoints(m) + TotalPoints(d)
    ensures IssuesOf(c + m + d) == [] + IssuesOf(c) + IssuesOf(m) + IssuesOf(d)
    ensures AdviceOf(c + m + d) == [] + AdviceOf(c) + AdviceOf(m) + AdviceOf(d)
  {
    RulesAppend(c, m);
    RulesAppend(c + m, d);
    assert [] + IssuesOf(c) == IssuesOf(c);
    assert [] + AdviceOf(c) == AdviceOf(c);
  }

  /** Firing a further rule appends its issue and advice and adds its points. */
  lemma RulesAppend(a: seq<Penalty>, b: seq<Penalty>)
    ensures TotalPoints(a + b) == TotalPoints(a) + TotalPoints(b)
    ensures IssuesOf(a + b) == IssuesOf(a) + IssuesOf(b)
    ensures AdviceOf(a + b) == AdviceOf(a) + AdviceOf(b)
    decreases |a|
  {
    if a == [] {
      assert a + b == b;
    } else {
      assert (a + b)[1..] == a[1..] + b;
      RulesAppend(a[1..], b);
    }
  }
}
