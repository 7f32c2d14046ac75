/** `analyze_disk_usage`: one mount point's totals turned into a graded status and advice. */
module DiskUsage {
  import opened Wrappers
  import opened Paths
  import opened FileTree

  /** What `shutil.disk_usage` reports for a path, in bytes. */
  datatype DiskTotals = DiskTotals(total: nat, used: nat, free: nat)

  datatype Status = Healthy | Concern | Warning | Critical

  datatype Advice =
    | ConsiderCleanup      // "Consider cleanup operations"
    | ImmediateAttention   // disk nearly full
    | UnderOneGBFree       // less than 1GB free

  datatype Assessment = Assessment(
    path: string,
    totalGB: real,
    usedGB: real,
    freeGB: real,
    usagePercent: real,
    status: Status,
    recommendations: seq<Advice>)

  /** The status ladder: each tier starts just above its threshold, so a usage of exactly
      70, 80 or 90 percent stays in the lower tier. */
  function StatusOf(usagePercent: real): (s: Status)
    ensures s == Critical <==> usagePercent > 90.0
    ensures s == Warning <==> 80.0 < usagePercent <= 90.0
    ensures s == Concern <==> 70.0 < usagePercent <= 80.0
    ensures s == Healthy <==> usagePercent <= 70.0
  {
    if usagePercent > 90.0 then Critical
    else if usagePercent > 80.0 then Warning
    else if usagePercent > 70.0 then Concern
    else Healthy
  }

  function Severity(s: Status): nat
  {
    match s
    case Healthy => 0
    case Concern => 1
    case Warning => 2
    case Critical => 3
  }

  /** More usage never gives a milder status. */
  lemma StatusMonotone(p: real, q: real)
    requires p <= q
    ensures Severity(StatusOf(p)) <= Severity(StatusOf(q))
  {
  }

  /** The position of each piece of advice in the fixed order the checks run in. */
  function Rank(a: Advice): nat
  {
    match a
    case ConsiderCleanup => 0
    case ImmediateAttention => 1
    case UnderOneGBFree => 2
  }

  /** The three independent checks: each piece of advice is present exactly when its own
      condition holds, whatever the others do, and they come in the fixed order, once each. */
  function Recommendations(usagePercent: real, freeGB: real): (r: seq<Advice>)
    ensures ConsiderCleanup in r <==> usagePercent > 80.0
    ensures ImmediateAttention in r <==> usagePercent > 90.0
    ensures UnderOneGBFree in r <==> freeGB < 1.0
    ensures forall i, j :: 0 <= i < j < |r| ==> Rank(r[i]) < Rank(r[j])
  {
    (if usagePercent > 80.0 then [ConsiderCleanup] else [])
      + (if usagePercent > 90.0 then [ImmediateAttention] else [])
      + (if freeGB < 1.0 then [UnderOneGBFree] else [])
  }

  /** On Windows the default path "/" stands for drive C. */
  function ResolvePath(path: string, isWindows: bool): string
  {
    if isWindows && path == "/" then "C:\\" else path
  }

  lemma DivTimes(a: real, b: real, c: real)
    requires b > 0.0
    ensures a / b * c * b == a * c
  {
  }

  lemma DivBack(a: real, b: real)
    requires b > 0.0
    ensures a / b * b == a
  {
  }

  /** The figures and grading for a path whose totals the OS reported. */
  function Assess(path: string, usage: DiskTotals): (a: Assessment)
    requires usage.total > 0
    ensures a.path == path
    ensures a.usagePercent * (usage.total as real) == (usage.used as real) * 100.0
    ensures a.freeGB * (GiB as real) == usage.free as real
    ensures a.totalGB * (GiB as real) == usage.total as real
    ensures a.usedGB * (GiB as real) == usage.used as real
    ensures a.status == StatusOf(a.usagePercent)
    ensures a.recommendations == Recommendations(a.usagePercent, a.freeGB)
  {
    var gib := GiB as real;
    var usedPercent := (usage.used as real) / (usage.total as real) * 100.0;
    var freeGB := usage.free as real / gib;
    DivTimes(usage.used as real, usage.total as real, 100.0);
    DivBack(usage.free as real, gib);
    DivBack(usage.total as real, gib);
    DivBack(usage.used as real, gib);
    Assessment(path, usage.total as real / gib, usage.used as real / gib, freeGB,
               usedPercent, StatusOf(usedPercent), Recommendations(usedPercent, freeGB))
  }

  /** The message `shutil.disk_usage("")` raises. The empty path passes the existence test,
      since `Path("")` is the current directory, and fails only when the OS is asked. */
  const EmptyPathError := "[Errno 2] No such file or directory: ''"

  /** The analysis of `path` in the tree `fs`, given what the OS reports for it: an error
      for the empty path, for a path that names nothing, and for a filesystem of size
      zero (the division raises). */
  function AnalyzeDiskUsage(fs: Node, path: string, isWindows: bool, usage: DiskTotals): (r: Result<Assessment>)
    ensures r.Ok? <==> Resolve(fs, ResolvePath(path, isWindows), Sep(isWindows)).Some? && usage.total > 0
    ensures path == "" ==> r == Err(EmptyPathError)
    ensures path != "" && Resolve(fs, ResolvePath(path, isWindows), Sep(isWindows)).None? ==>
      r == Err("Path " + ResolvePath(path, isWindows) + " does not exist")
    ensures r.Ok? ==> r.value == Assess(ResolvePath(path, isWindows), usage)
  {
    var p := ResolvePath(path, isWindows);
    if p == "" then Err(EmptyPathError)
    else if Resolve(fs, p, Sep(isWindows)).None? then Err("Path " + p + " does not exist")
    else if usage.total == 0 then Err("division by zero")
    else Ok(Assess(p, usage))
  }
}
