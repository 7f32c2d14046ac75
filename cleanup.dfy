/** `cleanup_recommendations`: temporary directories, large stale files and likely
    duplicates found by a top-down walk, largest first, with the space they could free. */
module Cleanup {
  import opened Strings
  import opened Paths
  import opened FileTree
  import opened Walker
  import opened Sorting

  /** Directory names taken for temporary directories, compared in lower case. */
  const TempDirs: seq<string> := ["tmp", "temp", "__pycache__", ".cache", "node_modules", "Temp"]

  /** Name endings of stale files, compared with the lower-cased name. */
  const StaleExtensions: seq<string> := [".log", ".tmp", ".bak", ".old"]

  /** `s` ends with one of `endings`. */
  predicate EndsWithAny(s: string, endings: seq<string>)
  {
    endings != [] && (EndsWith(s, endings[0]) || EndsWithAny(s, endings[1..]))
  }

  /** The temporary-directory names as they are compared, in lower case. */
  const TempNamesLower: seq<string> := ["tmp", "temp", "__pycache__", ".cache", "node_modules", "temp"]

  // Each temporary-directory name in lower case, one at a time.
  lemma NodeModulesLowered()
    ensures Lower("node_modules") == "node_modules"
  {
    NoUpperLower("node_modules");
  }

  lemma PycacheLowered()
    ensures Lower("__pycache__") == "__pycache__"
  {
    NoUpperLower("__pycache__");
  }

  lemma CacheLowered()
    ensures Lower(".cache") == ".cache"
  {
    NoUpperLower(".cache");
  }

  lemma TmpLowered()
    ensures Lower("tmp") == "tmp"
  {
    NoUpperLower("tmp");
  }

  lemma TempLowered()
    ensures Lower("temp") == "temp"
  {
    NoUpperLower("temp");
  }

  lemma CapitalTempLowered()
    ensures Lower("Temp") == "temp"
  {
    NoUpperLower("emp");
    assert Lower("Temp") == [LowerChar('T')] + Lower("emp");
  }

  /** `[t.lower() for t in temp_dirs]` is `TempNamesLower`. */
  lemma TempNamesLowered()
    ensures |TempNamesLower| == |TempDirs|
    ensures Lower(TempDirs[0]) == TempNamesLower[0] && Lower(TempDirs[1]) == TempNamesLower[1]
    ensures Lower(TempDirs[2]) == TempNamesLower[2] && Lower(TempDirs[3]) == TempNamesLower[3]
    ensures Lower(TempDirs[4]) == TempNamesLower[4] && Lower(TempDirs[5]) == TempNamesLower[5]
  {
    TmpLowered();
    TempLowered();
    PycacheLowered();
    CacheLowered();
    NodeModulesLowered();
    CapitalTempLowered();
  }

  /** `dir_name.lower()` is among the lower-cased temporary-directory names. */
  predicate IsTempName(name: string)
  {
    Lower(name) in TempNamesLower
  }

  predicate IsStaleName(name: string)
  {
    EndsWithAny(Lower(name), StaleExtensions)
  }

  /** The duplicate heuristic: the name without its extension occurs, case-sensitively,
      in another name of the same listing. */
  predicate HasSibling(name: string, names: seq<string>)
  {
    exists g :: g in names && g != name && Contains(g, SplitExtRoot(name))
  }

  datatype Action = SafeToDelete | ConsiderTruncatingOrCompressing | ManualReviewNeeded

  datatype Risk = Low | Medium | High

  datatype Candidate =
    | TempDirectory(path: string, sizeMB: real, fileCount: nat)
    | LogFile(path: string, sizeMB: real, ageDays: real)
    | PotentialDuplicate(path: string, sizeMB: real)

  function ActionOf(c: Candidate): (a: Action)
    ensures a == SafeToDelete <==> c.TempDirectory?
    ensures a == ConsiderTruncatingOrCompressing <==> c.LogFile?
    ensures a == ManualReviewNeeded <==> c.PotentialDuplicate?
  {
    match c
    case TempDirectory(_, _, _) => SafeToDelete
    case LogFile(_, _, _) => ConsiderTruncatingOrCompressing
    case PotentialDuplicate(_, _) => ManualReviewNeeded
  }

  /** The risk follows the kind of candidate alone. */
  function RiskOf(c: Candidate): (r: Risk)
    ensures r == Low <==> c.TempDirectory?
    ensures r == Medium <==> c.LogFile?
    ensures r == High <==> c.PotentialDuplicate?
  {
    match c
    case TempDirectory(_, _, _) => Low
    case LogFile(_, _, _) => Medium
    case PotentialDuplicate(_, _) => High
  }

  function SizeMBOf(c: Candidate): real
  {
    c.sizeMB
  }

  /** What a candidate adds to the potential savings: a temporary directory all of its
      size, a stale file the 80% that compression is assumed to free, a duplicate nothing. */
  function Savings(c: Candidate): real
  {
    match c
    case TempDirectory(_, size, _) => size
    case LogFile(_, size, _) => size * 0.8
    case PotentialDuplicate(_, _) => 0.0
  }

  function TotalSavings(cs: seq<Candidate>): real
  {
    if cs == [] then 0.0 else Savings(cs[0]) + TotalSavings(cs[1..])
  }

  function SumSizes(cs: seq<Candidate>): real
  {
    if cs == [] then 0.0 else cs[0].sizeMB + SumSizes(cs[1..])
  }

  function CountTemp(cs: seq<Candidate>): nat
  {
    if cs == [] then 0 else (if cs[0].TempDirectory? then 1 else 0) + CountTemp(cs[1..])
  }

  function CountLog(cs: seq<Candidate>): nat
  {
    if cs == [] then 0 else (if cs[0].LogFile? then 1 else 0) + CountLog(cs[1..])
  }

  /** What stays fixed during one analysis: the separator, the path the walk starts from,
      the deep flag and the clock. */
  datatype Ctx = Ctx(sep: char, top: string, deep: bool, now: real)

  /** A root is processed in deep mode, or when it lies at most three separators below the top. */
  predicate Processed(x: Ctx, root: string)
  {
    x.deep || Depth(x.sep, x.top, root) <= 3
  }

  /** The consumer's pruning: a processed root loses its temporary subdirectories. */
  function PruneOf(x: Ctx): (string, string) -> bool
  {
    (root: string, name: string) => Processed(x, root) && IsTempName(name)
  }

  /** The candidate a subdirectory of a processed root gives: one if it is a temporary
      directory holding more than 1 MiB. */
  function TempRec(x: Ctx, root: string, d: Node): seq<Candidate>
  {
    if IsTempName(d.name) && Bytes(d) > MiB
    then [TempDirectory(Join(x.sep, root, d.name), InMiB(Bytes(d)), FileCount(d))]
    else []
  }

  function TempRecs(x: Ctx, root: string, dirs: seq<Node>): seq<Candidate>
  {
    if dirs == [] then [] else TempRec(x, root, dirs[0]) + TempRecs(x, root, dirs[1..])
  }

  /** The candidates a file of a processed root gives, given the names of its listing: a
      stale file above 10 MiB, then (in deep mode) a likely duplicate above 1 MiB. A file
      that cannot be stat'ed gives none. */
  function FileRec(x: Ctx, root: string, f: Node, names: seq<string>): seq<Candidate>
  {
    match f
    case File(name, Some(info)) =>
      var path := Join(x.sep, root, name);
      (if IsStaleName(name) && info.size > 10 * MiB
       then [LogFile(path, InMiB(info.size), AgeInDays(x.now, info.mtime))] else [])
        + (if x.deep && info.size > MiB && HasSibling(name, names)
           then [PotentialDuplicate(path, InMiB(info.size))] else [])
    case _ => []
  }

  function FileRecs(x: Ctx, root: string, files: seq<Node>, names: seq<string>): seq<Candidate>
  {
    if files == [] then [] else FileRec(x, root, files[0], names) + FileRecs(x, root, files[1..], names)
  }

  /** The candidates one `(root, dirs, files)` triple gives: none for a root too deep to
      process, else its temporary subdirectories, then its files. */
  function EntryRecs(x: Ctx, e: Entry): seq<Candidate>
  {
    if !Processed(x, e.root) then []
    else TempRecs(x, e.root, e.dirs) + FileRecs(x, e.root, e.files, Names(e.files))
  }

  function Recs(x: Ctx, es: seq<Entry>): seq<Candidate>
  {
    if es == [] then [] else EntryRecs(x, es[0]) + Recs(x, es[1..])
  }

  datatype AnalysisType = Deep | Standard

  datatype Insight =
    | SignificantPotential(savingsGB: real)
    | TempDirectoriesFound(count: nat)
    | LargeLogFilesFound(count: nat)

  datatype CleanupReport = CleanupReport(
    path: string,
    analysisType: AnalysisType,
    recommendationsCount: nat,
    recommendations: seq<Candidate>,
    savingsMB: real,
    savingsGB: real,
    insights: seq<Insight>)

  /** How many candidates the report lists. */
  const MaxListed := 20

  /** The insights: more than 1000 MiB of savings, then the temporary directories and the
      stale files among the candidates given. */
  function InsightsOf(savingsMB: real, cs: seq<Candidate>): seq<Insight>
  {
    (if savingsMB > 1000.0 then [SignificantPotential(savingsMB / 1024.0)] else [])
      + (if CountTemp(cs) > 0 then [TempDirectoriesFound(CountTemp(cs))] else [])
      + (if CountLog(cs) > 0 then [LargeLogFilesFound(CountLog(cs))] else [])
  }

  /** The report for the candidates found, in walk order. */
  function ReportOf(path: string, deep: bool, all: seq<Candidate>): CleanupReport
  {
    var sorted := SortDesc(all, SizeMBOf);
    var savings := TotalSavings(all);
    CleanupReport(path, if deep then Deep else Standard, |sorted|, Take(sorted, MaxListed), savings,
                  savings / 1024.0, InsightsOf(savings, sorted))
  }

  function CtxOf(path: string, deep: bool, now: real, isWindows: bool): Ctx
  {
    Ctx(Sep(isWindows), path, deep, now)
  }

  /** Every candidate the walk of `path` gives, in walk order. */
  function CandidatesUnder(fs: Node, path: string, deep: bool, now: real, isWindows: bool): seq<Candidate>
  {
    var x := CtxOf(path, deep, now, isWindows);
    Recs(x, Pending(x.sep, Start(fs, path, x.sep), PruneOf(x)))
  }

  /** What `cleanup_recommendations` answers for a tree and its arguments. */
  function CleanupResult(fs: Node, path: string, deep: bool, now: real, isWindows: bool): CleanupReport
  {
    ReportOf(path, deep, CandidatesUnder(fs, path, deep, now, isWindows))
  }

  lemma {:induction false} InsertTallies(c: Candidate, s: seq<Candidate>)
    ensures CountTemp(Insert(c, s, SizeMBOf)) == (if c.TempDirectory? then 1 else 0) + CountTemp(s)
    ensures CountLog(Insert(c, s, SizeMBOf)) == (if c.LogFile? then 1 else 0) + CountLog(s)
  {
    if s != [] && SizeMBOf(c) < SizeMBOf(s[0]) {
      InsertTallies(c, s[1..]);
      assert Insert(c, s, SizeMBOf) == [s[0]] + Insert(c, s[1..], SizeMBOf);
    }
  }

  /** Sorting changes neither how many temporary directories nor how many stale files
      there are, so counting over the sorted list counts the full candidate list. */
  lemma {:induction false} SortKeepsTallies(cs: seq<Candidate>)
    ensures CountTemp(SortDesc(cs, SizeMBOf)) == CountTemp(cs)
    ensures CountLog(SortDesc(cs, SizeMBOf)) == CountLog(cs)
  {
    if cs != [] {
      SortKeepsTallies(cs[1..]);
      InsertTallies(cs[0], SortDesc(cs[1..], SizeMBOf));
    }
  }

  /** The insights count the candidates given: more than 1000 MiB of savings, the
      temporary directories and the stale files, each reported exactly when there is one. */
  lemma InsightsFacts(savingsMB: real, cs: seq<Candidate>)
    ensures var ins := InsightsOf(savingsMB, cs);
      && (SignificantPotential(savingsMB / 1024.0) in ins <==> savingsMB > 1000.0)
      && (TempDirectoriesFound(CountTemp(cs)) in ins <==> CountTemp(cs) > 0)
      && (LargeLogFilesFound(CountLog(cs)) in ins <==> CountLog(cs) > 0)
      && (forall i :: i in ins && i.TempDirectoriesFound? ==> i.count == CountTemp(cs))
      && (forall i :: i in ins && i.LargeLogFilesFound? ==> i.count == CountLog(cs))
  {
  }

  /** The list a report shows: the largest candidates, at most 20, largest first. */
  lemma ListedFacts(all: seq<Candidate>)
    ensures var listed := Take(SortDesc(all, SizeMBOf), MaxListed);
      && NonIncreasing(listed, SizeMBOf)
      && listed <= SortDesc(all, SizeMBOf)
      && multiset(listed) <= multiset(all)
      && |listed| == (if |all| <= MaxListed then |all| else MaxListed)
  {
    SortedPrefix(all, SizeMBOf, MaxListed);
  }

  /** The report on a list of candidates: its count is that of every candidate, its list
      the largest of them (at most 20, largest first), its savings those of every
      candidate, and its insights count over every candidate rather than over the list shown. */
  lemma ReportFacts(path: string, deep: bool, all: seq<Candidate>)
    ensures var r := ReportOf(path, deep, all);
      && r.path == path
      && (r.analysisType == Deep <==> deep)
      && r.recommendationsCount == |all|
      && NonIncreasing(r.recommendations, SizeMBOf)
      && r.recommendations <= SortDesc(all, SizeMBOf)
      && multiset(r.recommendations) <= multiset(all)
      && |r.recommendations| == (if |all| <= MaxListed then |all| else MaxListed)
      && r.savingsMB == TotalSavings(all)
      && r.savingsGB * 1024.0 == r.savingsMB
      && r.insights == InsightsOf(r.savingsMB, SortDesc(all, SizeMBOf))
      && (TempDirectoriesFound(CountTemp(all)) in r.insights <==> CountTemp(all) > 0)
      && (LargeLogFilesFound(CountLog(all)) in r.insights <==> CountLog(all) > 0)
      && (forall i :: i in r.insights && i.TempDirectoriesFound? ==> i.count == CountTemp(all))
      && (forall i :: i in r.insights && i.LargeLogFilesFound? ==> i.count == CountLog(all))
  {
    var sorted := SortDesc(all, SizeMBOf);
    var savings := TotalSavings(all);
    var r := ReportOf(path, deep, all);
    assert r.savingsGB == savings / 1024.0 && r.insights == InsightsOf(savings, sorted);
    ListedFacts(all);
    SortDescPermutes(all, SizeMBOf);
    SortKeepsTallies(all);
    InsightsFacts(savings, sorted);
  }

  /** The lower bound each kind of candidate was reported for. */
  predicate AboveThreshold(x: Ctx, c: Candidate)
  {
    match c
    case TempDirectory(_, size, _) => size > 1.0
    case LogFile(_, size, _) => size > 10.0
    case PotentialDuplicate(_, size) => x.deep && size > 1.0
  }

  lemma {:induction false} TempRecsAbove(x: Ctx, root: string, dirs: seq<Node>)
    ensures forall c :: c in TempRecs(x, root, dirs) ==> c.TempDirectory? && AboveThreshold(x, c)
  {
    if dirs != [] {
      TempRecsAbove(x, root, dirs[1..]);
    }
  }

  lemma {:induction false} FileRecsAbove(x: Ctx, root: string, files: seq<Node>, names: seq<string>)
    ensures forall c :: c in FileRecs(x, root, files, names) ==> !c.TempDirectory? && AboveThreshold(x, c)
  {
    if files != [] {
      FileRecsAbove(x, root, files[1..], names);
    }
  }

  /** Every candidate clears the threshold of its kind: a temporary directory more than
      1 MiB, a stale file more than 10 MiB, a duplicate more than 1 MiB and only in deep mode. */
  lemma {:induction false} CandidatesAbove(x: Ctx, es: seq<Entry>)
    ensures forall c :: c in Recs(x, es) ==> AboveThreshold(x, c)
  {
    if es != [] {
      CandidatesAbove(x, es[1..]);
      TempRecsAbove(x, es[0].root, es[0].dirs);
      FileRecsAbove(x, es[0].root, es[0].files, Names(es[0].files));
    }
  }

  /** The savings are never negative and never more than the candidates' sizes together. */
  lemma {:induction false} SavingsBounds(x: Ctx, cs: seq<Candidate>)
    requires forall c :: c in cs ==> AboveThreshold(x, c)
    ensures 0.0 <= TotalSavings(cs) <= SumSizes(cs)
  {
    if cs != [] {
      assert cs[0] in cs;
      SavingsBounds(x, cs[1..]);
    }
  }

  /** The summed sizes of the temporary directories among `cs`. */
  function TempSizes(cs: seq<Candidate>): real
  {
    if cs == [] then 0.0 else (if cs[0].TempDirectory? then cs[0].sizeMB else 0.0) + TempSizes(cs[1..])
  }

  /** The summed sizes of the stale files among `cs`. */
  function LogSizes(cs: seq<Candidate>): real
  {
    if cs == [] then 0.0 else (if cs[0].LogFile? then cs[0].sizeMB else 0.0) + LogSizes(cs[1..])
  }

  /** The savings are the temporary directories' sizes plus 80% of the stale files' sizes;
      duplicates add nothing. */
  lemma {:induction false} SavingsByKind(cs: seq<Candidate>)
    ensures TotalSavings(cs) == TempSizes(cs) + 0.8 * LogSizes(cs)
  {
    if cs != [] {
      SavingsByKind(cs[1..]);
    }
  }

  /** What `cleanup_recommendations` answers about the walk of `path`: the count is that of
      every candidate, the list shows the largest of them (at most 20, largest first), each
      above the threshold of its kind; the savings are the temporary directories' sizes plus
      80% of the stale files' sizes over every candidate, never more than their sizes; the
      insights count over every candidate. */
  lemma CleanupReported(fs: Node, path: string, deep: bool, now: real, isWindows: bool)
    ensures var x := CtxOf(path, deep, now, isWindows);
      var all := CandidatesUnder(fs, path, deep, now, isWindows);
      var r := CleanupResult(fs, path, deep, now, isWindows);
      && r.recommendationsCount == |all|
      && NonIncreasing(r.recommendations, SizeMBOf)
      && multiset(r.recommendations) <= multiset(all)
      && |r.recommendations| == (if |all| <= MaxListed then |all| else MaxListed)
      && (forall c :: c in r.recommendations ==> AboveThreshold(x, c))
      && r.savingsMB == TempSizes(all) + 0.8 * LogSizes(all)
      && 0.0 <= r.savingsMB <= SumSizes(all)
      && (TempDirectoriesFound(CountTemp(all)) in r.insights <==> CountTemp(all) > 0)
      && (LargeLogFilesFound(CountLog(all)) in r.insights <==> CountLog(all) > 0)
  {
    var x := CtxOf(path, deep, now, isWindows);
    var all := CandidatesUnder(fs, path, deep, now, isWindows);
    var r := CleanupResult(fs, path, deep, now, isWindows);
    ReportFacts(path, deep, all);
    CandidatesAbove(x, Pending(x.sep, Start(fs, path, x.sep), PruneOf(x)));
    SavingsBounds(x, all);
    SavingsByKind(all);
    forall c | c in r.recommendations
      ensures AboveThreshold(x, c)
    {
      assert c in multiset(r.recommendations);
    }
  }

  /** Each subdirectory's candidate is among those of its listing. */
  lemma {:induction false} TempRecsHas(x: Ctx, root: string, dirs: seq<Node>, d: Node, c: Candidate)
    requires d in dirs && c in TempRec(x, root, d)
    ensures c in TempRecs(x, root, dirs)
  {
    if dirs[0] != d {
      TempRecsHas(x, root, dirs[1..], d, c);
    }
  }

  /** Each file's candidates are among those of its listing. */
  lemma {:induction false} FileRecsHas(x: Ctx, root: string, files: seq<Node>, names: seq<string>, f: Node,
                                       c: Candidate)
    requires f in files && c in FileRec(x, root, f, names)
    ensures c in FileRecs(x, root, files, names)
  {
    if files[0] != f {
      FileRecsHas(x, root, files[1..], names, f, c);
    }
  }

  /** Each entry's candidates are among those of the walk. */
  lemma {:induction false} RecsHas(x: Ctx, es: seq<Entry>, e: Entry, c: Candidate)
    requires e in es && c in EntryRecs(x, e)
    ensures c in Recs(x, es)
  {
    if es[0] != e {
      RecsHas(x, es[1..], e, c);
    }
  }

  /** A file of a processed root that can be stat'ed and is a candidate of its listing is
      a candidate of the walk. */
  lemma FileCandidateReported(x: Ctx, es: seq<Entry>, e: Entry, f: Node, c: Candidate)
    requires e in es && Processed(x, e.root) && f in e.files && c in FileRec(x, e.root, f, Names(e.files))
    ensures c in Recs(x, es)
  {
    FileRecsHas(x, e.root, e.files, Names(e.files), f, c);
    RecsHas(x, es, e, c);
  }

  /** The temporary-directory rule, "if" direction: under a processed root of the walk, a
      subdirectory with a temporary name holding more than 1 MiB is reported, with its size
      and file count. */
  lemma TempDirReported(fs: Node, path: string, deep: bool, now: real, isWindows: bool, e: Entry, d: Node)
    requires var x := CtxOf(path, deep, now, isWindows);
      e in Pending(x.sep, Start(fs, path, x.sep), PruneOf(x)) && Processed(x, e.root)
    requires d in e.dirs && IsTempName(d.name) && Bytes(d) > MiB
    ensures var x := CtxOf(path, deep, now, isWindows);
      TempDirectory(Join(x.sep, e.root, d.name), InMiB(Bytes(d)), FileCount(d))
        in CandidatesUnder(fs, path, deep, now, isWindows)
  {
    var x := CtxOf(path, deep, now, isWindows);
    var c := TempDirectory(Join(x.sep, e.root, d.name), InMiB(Bytes(d)), FileCount(d));
    assert c in TempRec(x, e.root, d);
    TempRecsHas(x, e.root, e.dirs, d, c);
    RecsHas(x, Pending(x.sep, Start(fs, path, x.sep), PruneOf(x)), e, c);
  }

  /** The stale-file rule, "if" direction: under a processed root of the walk, a file that
      can be stat'ed, has a stale extension and is larger than 10 MiB is reported. */
  lemma StaleFileReported(fs: Node, path: string, deep: bool, now: real, isWindows: bool, e: Entry, f: Node)
    requires var x := CtxOf(path, deep, now, isWindows);
      e in Pending(x.sep, Start(fs, path, x.sep), PruneOf(x)) && Processed(x, e.root)
    requires f in e.files && f.File? && f.info.Some? && IsStaleName(f.name) && f.info.value.size > 10 * MiB
    ensures var x := CtxOf(path, deep, now, isWindows);
      LogFile(Join(x.sep, e.root, f.name), InMiB(f.info.value.size), AgeInDays(now, f.info.value.mtime))
        in CandidatesUnder(fs, path, deep, now, isWindows)
  {
    var x := CtxOf(path, deep, now, isWindows);
    var c := LogFile(Join(x.sep, e.root, f.name), InMiB(f.info.value.size), AgeInDays(now, f.info.value.mtime));
    assert c in FileRec(x, e.root, f, Names(e.files));
    FileCandidateReported(x, Pending(x.sep, Start(fs, path, x.sep), PruneOf(x)), e, f, c);
  }

  /** The duplicate rule, "if" direction: in deep mode, a file of the walk that can be
      stat'ed, is larger than 1 MiB and has a sibling whose name holds its root is reported. */
  lemma DuplicateReported(fs: Node, path: string, now: real, isWindows: bool, e: Entry, f: Node)
    requires var x := CtxOf(path, true, now, isWindows);
      e in Pending(x.sep, Start(fs, path, x.sep), PruneOf(x))
    requires f in e.files && f.File? && f.info.Some? && f.info.value.size > MiB && HasSibling(f.name, Names(e.files))
    ensures var x := CtxOf(path, true, now, isWindows);
      PotentialDuplicate(Join(x.sep, e.root, f.name), InMiB(f.info.value.size))
        in CandidatesUnder(fs, path, true, now, isWindows)
  {
    var x := CtxOf(path, true, now, isWindows);
    var c := PotentialDuplicate(Join(x.sep, e.root, f.name), InMiB(f.info.value.size));
    assert c in FileRec(x, e.root, f, Names(e.files));
    FileCandidateReported(x, Pending(x.sep, Start(fs, path, x.sep), PruneOf(x)), e, f, c);
  }

  lemma {:induction false} RecsAppend(x: Ctx, a: seq<Entry>, b: seq<Entry>)
    ensures Recs(x, a + b) == Recs(x, a) + Recs(x, b)
  {
    if a == [] {
      assert a + b == b;
    } else {
      assert (a + b)[1..] == a[1..] + b;
      RecsAppend(x, a[1..], b);
    }
  }

  lemma {:induction false} QuietEntries(x: Ctx, es: seq<Entry>)
    requires forall e :: e in es ==> !Processed(x, e.root)
    ensures Recs(x, es) == []
  {
    if es != [] {
      assert es[0] in es;
      QuietEntries(x, es[1..]);
    }
  }

  /** Without deep analysis, nothing at or below a root more than three separators below
      the top gives a candidate, although the walk still descends there. */
  lemma QuietBelow(x: Ctx, p: string, n: Node)
    requires !x.deep && Depth(x.sep, x.top, p) > 3
    ensures Recs(x, Walk(x.sep, p, n, PruneOf(x))) == []
  {
    var es := Walk(x.sep, p, n, PruneOf(x));
    WalkRootsExtend(x.sep, p, n, PruneOf(x));
    forall e | e in es
      ensures !Processed(x, e.root)
    {
      DepthExtends(x.sep, x.top, p, e.root);
    }
    QuietEntries(x, es);
  }

  /** `b` is `a` with the insides of the temporary directories below it replaced, each
      keeping its name, its total size and its file count. */
  predicate SameOutsideTemp(a: Node, b: Node)
    decreases a, 0
  {
    match a
    case Dir(name, cs) =>
      && b.Dir? && b.name == name && |b.children| == |cs|
      && forall k :: 0 <= k < |cs| ==> ChildSame(cs[k], b.children[k])
    case _ => b == a
  }

  /** One entry of a listing and its replacement. */
  predicate ChildSame(c: Node, d: Node)
    decreases c, 1
  {
    if IsDir(c) && IsTempName(c.name)
    then IsDir(d) && d.name == c.name && Bytes(d) == Bytes(c) && FileCount(d) == FileCount(c)
    else SameOutsideTemp(c, d)
  }

  predicate ListingSame(cs: seq<Node>, ds: seq<Node>)
  {
    |cs| == |ds| && forall k :: 0 <= k < |cs| ==> ChildSame(cs[k], ds[k])
  }

  lemma ListingSameTail(cs: seq<Node>, ds: seq<Node>)
    requires ListingSame(cs, ds) && cs != []
    ensures ChildSame(cs[0], ds[0]) && ListingSame(cs[1..], ds[1..])
  {
    assert forall k :: 0 <= k < |cs| - 1 ==> cs[1..][k] == cs[k + 1] && ds[1..][k] == ds[k + 1];
  }

  /** Two listings that agree outside temporary directories have the same files. */
  lemma {:induction false} ListingSameFiles(cs: seq<Node>, ds: seq<Node>)
    requires ListingSame(cs, ds)
    ensures FilesOf(cs) == FilesOf(ds)
  {
    if cs != [] {
      ListingSameTail(cs, ds);
      ListingSameFiles(cs[1..], ds[1..]);
      assert cs[0].File? ==> ds[0] == cs[0];
      assert ds[0].File? ==> cs[0].File?;
    }
  }

  /** Two listings that agree outside temporary directories give the same
      temporary-directory candidates. */
  lemma {:induction false} ListingSameTemps(x: Ctx, p: string, cs: seq<Node>, ds: seq<Node>)
    requires ListingSame(cs, ds)
    ensures TempRecs(x, p, Subdirs(cs)) == TempRecs(x, p, Subdirs(ds))
  {
    if cs != [] {
      ListingSameTail(cs, ds);
      ListingSameTemps(x, p, cs[1..], ds[1..]);
      var c, d := cs[0], ds[0];
      assert IsDir(c) <==> IsDir(d);
      if IsDir(c) {
        assert Subdirs(cs) == [c] + Subdirs(cs[1..]);
        assert Subdirs(ds) == [d] + Subdirs(ds[1..]);
        assert Subdirs(cs)[1..] == Subdirs(cs[1..]);
        assert Subdirs(ds)[1..] == Subdirs(ds[1..]);
        if IsTempName(c.name) {
          assert d.name == c.name && Bytes(d) == Bytes(c) && FileCount(d) == FileCount(c);
        } else {
          assert IsTempName(d.name) == IsTempName(c.name);
        }
      } else {
        assert Subdirs(cs) == Subdirs(cs[1..]);
        assert Subdirs(ds) == Subdirs(ds[1..]);
      }
    }
  }

  /** What lies inside a temporary directory matters only through its size and file
      count: no file below one is ever a candidate, whether or not the directory was
      reported and whether or not its parent was processed. */
  lemma {:induction false} TempContentsIgnored(x: Ctx, p: string, a: Node, b: Node)
    requires SameOutsideTemp(a, b)
    ensures Recs(x, Walk(x.sep, p, a, PruneOf(x))) == Recs(x, Walk(x.sep, p, b, PruneOf(x)))
    decreases a, 1
  {
    if a.Dir? {
      ListingSameFiles(a.children, b.children);
      ListingSameTemps(x, p, a.children, b.children);
      TempContentsIgnoredAll(x, p, a.children, b.children);
      var ea := Entry(p, Subdirs(a.children), FilesOf(a.children));
      var eb := Entry(p, Subdirs(b.children), FilesOf(b.children));
      RecsAppend(x, [ea], WalkAll(x.sep, p, a.children, PruneOf(x)));
      RecsAppend(x, [eb], WalkAll(x.sep, p, b.children, PruneOf(x)));
      assert EntryRecs(x, ea) == EntryRecs(x, eb);
    }
  }

  lemma {:induction false} TempContentsIgnoredAll(x: Ctx, p: string, cs: seq<Node>, ds: seq<Node>)
    requires ListingSame(cs, ds)
    ensures Recs(x, WalkAll(x.sep, p, cs, PruneOf(x))) == Recs(x, WalkAll(x.sep, p, ds, PruneOf(x)))
    decreases cs, 0
  {
    if cs != [] {
      ListingSameTail(cs, ds);
      TempContentsIgnoredAll(x, p, cs[1..], ds[1..]);
      var c, d := cs[0], ds[0];
      var prune := PruneOf(x);
      var q := Join(x.sep, p, c.name);
      var wc := if IsDir(c) && !prune(p, c.name) then Walk(x.sep, q, c, prune) else [];
      var wd := if IsDir(d) && !prune(p, d.name) then Walk(x.sep, q, d, prune) else [];
      if IsDir(c) && IsTempName(c.name) {
        if !Processed(x, p) {
          JoinExtends(x.sep, p, c.name);
          DepthExtends(x.sep, x.top, p, q);
          QuietBelow(x, q, c);
          QuietBelow(x, q, d);
        }
      } else if c.Dir? {
        TempContentsIgnored(x, q, c, d);
      }
      assert Recs(x, wc) == Recs(x, wd);
      RecsAppend(x, wc, WalkAll(x.sep, p, cs[1..], prune));
      RecsAppend(x, wd, WalkAll(x.sep, p, ds[1..], prune));
    }
  }

  lemma {:induction false} TotalSavingsAppend(a: seq<Candidate>, b: seq<Candidate>)
    ensures TotalSavings(a + b) == TotalSavings(a) + TotalSavings(b)
  {
    if a == [] {
      assert a + b == b;
    } else {
      assert (a + b)[1..] == a[1..] + b;
      TotalSavingsAppend(a[1..], b);
    }
  }

  /** A root too deep to process keeps all its subdirectories, temporary ones included. */
  lemma {:induction false} KeptUnprocessed(x: Ctx, p: string, ds: seq<Node>)
    requires !Processed(x, p)
    ensures Kept(p, ds, PruneOf(x)) == ds
  {
    if ds != [] {
      KeptUnprocessed(x, p, ds[1..]);
    }
  }

  /** Concatenation regrouped, for sequences given by value. */
  lemma Regroup(a: seq<Candidate>, b: seq<Candidate>, c: seq<Candidate>, whole: seq<Candidate>)
    requires whole == b + c
    ensures (a + b) + c == a + whole
  {
  }

  /** The sub-walk that measures a temporary directory: the files below it whose size
      can be read, summed and counted. */
  method MeasureTree(n: Node) returns (size: nat, count: nat)
    ensures size == Bytes(n) && count == FileCount(n)
  {
    size, count := 0, 0;
    var stack := [n];
    assert stack[0] == n && stack[1..] == [];
    assert ForestBytes(stack) == Bytes(n) + ForestBytes([]);
    assert ForestFileCount(stack) == FileCount(n) + ForestFileCount([]);
    while stack != []
      invariant size + ForestBytes(stack) == Bytes(n)
      invariant count + ForestFileCount(stack) == FileCount(n)
      decreases ForestSize(stack)
    {
      var m := stack[0];
      var rest := stack[1..];
      assert ForestSize(stack) == Size(m) + ForestSize(rest);
      assert ForestBytes(stack) == Bytes(m) + ForestBytes(rest);
      assert ForestFileCount(stack) == FileCount(m) + ForestFileCount(rest);
      match m {
        case File(_, info) =>
          if info.Some? {
            size := size + info.value.size;
            count := count + 1;
          }
          stack := rest;
        case Dir(_, cs) =>
          ForestAppend(cs, rest);
          assert ForestSize(stack) == 1 + ForestSize(cs) + ForestSize(rest);
          stack := cs + rest;
        case Unlistable(_) =>
          stack := rest;
      }
    }
  }

  /** One subdirectory of a processed root: a temporary one is measured and reported when
      it holds more than 1 MiB; `gain` is what the report adds to the savings. */
  method CheckTempDir(x: Ctx, root: string, d: Node) returns (found: seq<Candidate>, gain: real)
    ensures found == TempRec(x, root, d)
    ensures gain == TotalSavings(found)
  {
    found, gain := [], 0.0;
    if IsTempName(d.name) {
      var size, fileCount := MeasureTree(d);
      if size > MiB {
        var c := TempDirectory(Join(x.sep, root, d.name), InMiB(size), fileCount);
        found := [c];
        gain := Savings(c);
      }
    }
  }

  lemma {:induction false} TempRecsAppend(x: Ctx, root: string, a: seq<Node>, b: seq<Node>)
    ensures TempRecs(x, root, a + b) == TempRecs(x, root, a) + TempRecs(x, root, b)
  {
    if a == [] {
      assert a + b == b;
    } else {
      assert (a + b)[1..] == a[1..] + b;
      TempRecsAppend(x, root, a[1..], b);
    }
  }

  lemma {:induction false} KeptAppend(p: string, a: seq<Node>, b: seq<Node>, prune: (string, string) -> bool)
    ensures Kept(p, a + b, prune) == Kept(p, a, prune) + Kept(p, b, prune)
  {
    if a == [] {
      assert a + b == b;
    } else {
      assert (a + b)[1..] == a[1..] + b;
      KeptAppend(p, a[1..], b, prune);
    }
  }

  lemma TempRecsSnoc(x: Ctx, root: string, dirs: seq<Node>, i: nat)
    requires i < |dirs|
    ensures TempRecs(x, root, dirs[..i + 1]) == TempRecs(x, root, dirs[..i]) + TempRec(x, root, dirs[i])
  {
    assert dirs[..i + 1] == dirs[..i] + [dirs[i]];
    TempRecsAppend(x, root, dirs[..i], [dirs[i]]);
    assert TempRecs(x, root, [dirs[i]]) == TempRec(x, root, dirs[i]) + TempRecs(x, root, []);
  }

  lemma KeptSnoc(p: string, ds: seq<Node>, i: nat, prune: (string, string) -> bool)
    requires i < |ds|
    ensures Kept(p, ds[..i + 1], prune) == Kept(p, ds[..i], prune) + (if prune(p, ds[i].name) then [] else [ds[i]])
  {
    assert ds[..i + 1] == ds[..i] + [ds[i]];
    KeptAppend(p, ds[..i], [ds[i]], prune);
    assert Kept(p, [ds[i]], prune) == (if prune(p, ds[i].name) then [] else [ds[i]]) + Kept(p, [], prune);
  }

  /** One turn of the loop over the subdirectories of a processed root: the directory at
      `i` is checked, and kept in the listing unless it is a temporary one. */
  method CheckTempDirAt(x: Ctx, root: string, dirs: seq<Node>, i: nat, recs: seq<Candidate>, kept: seq<Node>,
                        savings: real, recs0: seq<Candidate>, savings0: real)
    returns (recs': seq<Candidate>, kept': seq<Node>, savings': real)
    requires Processed(x, root) && i < |dirs|
    requires recs == recs0 + TempRecs(x, root, dirs[..i])
    requires savings == savings0 + TotalSavings(TempRecs(x, root, dirs[..i]))
    requires kept == Kept(root, dirs[..i], PruneOf(x))
    ensures recs' == recs0 + TempRecs(x, root, dirs[..i + 1])
    ensures savings' == savings0 + TotalSavings(TempRecs(x, root, dirs[..i + 1]))
    ensures kept' == Kept(root, dirs[..i + 1], PruneOf(x))
  {
    var d := dirs[i];
    var step, gain := CheckTempDir(x, root, d);
    TempRecsSnoc(x, root, dirs, i);
    KeptSnoc(root, dirs, i, PruneOf(x));
    assert PruneOf(x)(root, d.name) == IsTempName(d.name);
    TotalSavingsAppend(TempRecs(x, root, dirs[..i]), step);
    Regroup(recs0, TempRecs(x, root, dirs[..i]), step, TempRecs(x, root, dirs[..i + 1]));
    recs' := recs + step;
    savings' := savings + gain;
    kept' := if IsTempName(d.name) then kept else kept + [d];
  }

  /** The loop over the subdirectories of a processed root: each temporary one is checked,
      and taken out of the listing whether or not it was reported. */
  method CheckTempDirs(x: Ctx, root: string, dirs: seq<Node>, recs: seq<Candidate>, savings: real)
    returns (recs': seq<Candidate>, kept: seq<Node>, savings': real)
    requires Processed(x, root)
    ensures recs' == recs + TempRecs(x, root, dirs)
    ensures savings' == savings + TotalSavings(TempRecs(x, root, dirs))
    ensures kept == Kept(root, dirs, PruneOf(x))
  {
    recs', kept, savings' := recs, [], savings;
    var i := 0;
    while i < |dirs|
      invariant 0 <= i <= |dirs|
      invariant recs' == recs + TempRecs(x, root, dirs[..i])
      invariant savings' == savings + TotalSavings(TempRecs(x, root, dirs[..i]))
      invariant kept == Kept(root, dirs[..i], PruneOf(x))
    {
      recs', kept, savings' := CheckTempDirAt(x, root, dirs, i, recs', kept, savings', recs, savings);
      i := i + 1;
    }
    assert dirs[..i] == dirs;
  }

  /** One file of a processed root, with `names` the names of its listing: a stale file
      above 10 MiB is reported, then in deep mode a likely duplicate above 1 MiB; `gain` is
      what the reports add to the savings. */
  method CheckFile(x: Ctx, root: string, f: Node, names: seq<string>) returns (found: seq<Candidate>, gain: real)
    ensures found == FileRec(x, root, f, names)
    ensures gain == TotalSavings(found)
  {
    found, gain := [], 0.0;
    if f.File? && f.info.Some? {
      var path := Join(x.sep, root, f.name);
      var size := f.info.value.size;
      if IsStaleName(f.name) && size > 10 * MiB {
        var c := LogFile(path, InMiB(size), AgeInDays(x.now, f.info.value.mtime));
        found := found + [c];
        gain := gain + Savings(c);
      }
      if x.deep && size > MiB && HasSibling(f.name, names) {
        var c := PotentialDuplicate(path, InMiB(size));
        TotalSavingsAppend(found, [c]);
        found := found + [c];
      }
    }
  }

  lemma {:induction false} FileRecsAppend(x: Ctx, root: string, a: seq<Node>, b: seq<Node>, names: seq<string>)
    ensures FileRecs(x, root, a + b, names) == FileRecs(x, root, a, names) + FileRecs(x, root, b, names)
  {
    if a == [] {
      assert a + b == b;
    } else {
      assert (a + b)[1..] == a[1..] + b;
      FileRecsAppend(x, root, a[1..], b, names);
    }
  }

  lemma FileRecsSnoc(x: Ctx, root: string, files: seq<Node>, names: seq<string>, i: nat)
    requires i < |files|
    ensures FileRecs(x, root, files[..i + 1], names) == FileRecs(x, root, files[..i], names) + FileRec(x, root, files[i], names)
  {
    assert files[..i + 1] == files[..i] + [files[i]];
    FileRecsAppend(x, root, files[..i], [files[i]], names);
  }

  /** One turn of the loop over the files: the file at `i` is checked and its reports
      are appended. */
  method CheckFileAt(x: Ctx, root: string, files: seq<Node>, names: seq<string>, i: nat,
                     recs: seq<Candidate>, savings: real, recs0: seq<Candidate>, savings0: real)
    returns (recs': seq<Candidate>, savings': real)
    requires i < |files|
    requires recs == recs0 + FileRecs(x, root, files[..i], names)
    requires savings == savings0 + TotalSavings(FileRecs(x, root, files[..i], names))
    ensures recs' == recs0 + FileRecs(x, root, files[..i + 1], names)
    ensures savings' == savings0 + TotalSavings(FileRecs(x, root, files[..i + 1], names))
  {
    var step, gain := CheckFile(x, root, files[i], names);
    FileRecsSnoc(x, root, files, names, i);
    TotalSavingsAppend(FileRecs(x, root, files[..i], names), step);
    Regroup(recs0, FileRecs(x, root, files[..i], names), step, FileRecs(x, root, files[..i + 1], names));
    recs' := recs + step;
    savings' := savings + gain;
  }

  /** The loop over the files of a processed root, with `names` the names of its listing. */
  method CheckFiles(x: Ctx, root: string, files: seq<Node>, names: seq<string>, recs: seq<Candidate>,
                    savings: real)
    returns (recs': seq<Candidate>, savings': real)
    ensures recs' == recs + FileRecs(x, root, files, names)
    ensures savings' == savings + TotalSavings(FileRecs(x, root, files, names))
  {
    recs', savings' := recs, savings;
    var i := 0;
    while i < |files|
      invariant 0 <= i <= |files|
      invariant recs' == recs + FileRecs(x, root, files[..i], names)
      invariant savings' == savings + TotalSavings(FileRecs(x, root, files[..i], names))
    {
      recs', savings' := CheckFileAt(x, root, files, names, i, recs', savings', recs, savings);
      i := i + 1;
    }
    assert files[..i] == files;
  }

  /** A processed root: its temporary subdirectories are checked and taken out of the
      listing, then its files are checked. */
  method ProcessRoot(x: Ctx, root: string, dirs: seq<Node>, files: seq<Node>)
    returns (found: seq<Candidate>, kept: seq<Node>, gain: real)
    requires Processed(x, root)
    ensures found == TempRecs(x, root, dirs) + FileRecs(x, root, files, Names(files))
    ensures kept == Kept(root, dirs, PruneOf(x))
    ensures gain == TotalSavings(found)
  {
    var fromDirs, gainDirs;
    fromDirs, kept, gainDirs := CheckTempDirs(x, root, dirs, [], 0.0);
    assert fromDirs == TempRecs(x, root, dirs);
    found, gain := CheckFiles(x, root, files, Names(files), fromDirs, gainDirs);
    TotalSavingsAppend(fromDirs, FileRecs(x, root, files, Names(files)));
  }

  /** One listed root: nothing for a root more than three separators below the top
      outside deep mode, whose listing is then left whole; otherwise what processing it
      gives. */
  method VisitRoot(x: Ctx, root: string, dirs: seq<Node>, files: seq<Node>)
    returns (found: seq<Candidate>, kept: seq<Node>, gain: real)
    ensures found == EntryRecs(x, Entry(root, dirs, files))
    ensures kept == Kept(root, dirs, PruneOf(x))
    ensures gain == TotalSavings(found)
  {
    var depth := Depth(x.sep, x.top, root);
    if !x.deep && depth > 3 {
      KeptUnprocessed(x, root, dirs);
      found, kept, gain := [], dirs, 0.0;
    } else {
      found, kept, gain := ProcessRoot(x, root, dirs, files);
    }
  }

  /** Taking a listable directory off the work list: its entry's candidates come first,
      then those of the work list with its kept subdirectories in front. */
  lemma PopDir(x: Ctx, it: Item, more: seq<Item>)
    requires it.node.Dir?
    ensures var e := Entry(it.path, Subdirs(it.node.children), FilesOf(it.node.children));
      var rest := Pending(x.sep, Items(x.sep, it.path, Kept(it.path, e.dirs, PruneOf(x))) + more, PruneOf(x));
      && Recs(x, Pending(x.sep, [it] + more, PruneOf(x))) == EntryRecs(x, e) + Recs(x, rest)
      && |rest| < |Pending(x.sep, [it] + more, PruneOf(x))|
  {
    var stack := [it] + more;
    var e := Entry(it.path, Subdirs(it.node.children), FilesOf(it.node.children));
    var rest := Pending(x.sep, Items(x.sep, it.path, Kept(it.path, e.dirs, PruneOf(x))) + more, PruneOf(x));
    PendingPop(x.sep, stack, PruneOf(x));
    assert stack[1..] == more;
    RecsAppend(x, [e], rest);
    assert Recs(x, [e]) == EntryRecs(x, e) + Recs(x, []);
  }

  /** A turn of the walk whose next item is a listable directory: its candidates are
      appended and the subdirectories left in its listing scheduled in front of the rest. */
  method VisitDir(x: Ctx, stack: seq<Item>, recs: seq<Candidate>, savings: real)
    returns (stack': seq<Item>, recs': seq<Candidate>, savings': real)
    requires stack != [] && stack[0].node.Dir?
    requires savings == TotalSavings(recs)
    ensures recs' + Recs(x, Pending(x.sep, stack', PruneOf(x))) == recs + Recs(x, Pending(x.sep, stack, PruneOf(x)))
    ensures |Pending(x.sep, stack', PruneOf(x))| < |Pending(x.sep, stack, PruneOf(x))|
    ensures savings' == TotalSavings(recs')
  {
    var item := stack[0];
    assert stack == [item] + stack[1..];
    PopDir(x, item, stack[1..]);
    var found, kept, gain := VisitRoot(x, item.path, Subdirs(item.node.children), FilesOf(item.node.children));
    TotalSavingsAppend(recs, found);
    stack' := Items(x.sep, item.path, kept) + stack[1..];
    recs' := recs + found;
    savings' := savings + gain;
    Regroup(recs, found, Recs(x, Pending(x.sep, stack', PruneOf(x))), Recs(x, Pending(x.sep, stack, PruneOf(x))));
  }

  /** One turn of the walk: the next item is listed, its candidates appended and its kept
      subdirectories scheduled in front of the rest of the work list. */
  method VisitNext(x: Ctx, stack: seq<Item>, recs: seq<Candidate>, savings: real)
    returns (stack': seq<Item>, recs': seq<Candidate>, savings': real)
    requires stack != []
    requires savings == TotalSavings(recs)
    ensures recs' + Recs(x, Pending(x.sep, stack', PruneOf(x))) == recs + Recs(x, Pending(x.sep, stack, PruneOf(x)))
    ensures savings' == TotalSavings(recs')
    ensures |Pending(x.sep, stack', PruneOf(x))| < |Pending(x.sep, stack, PruneOf(x))|
      || (Pending(x.sep, stack', PruneOf(x)) == Pending(x.sep, stack, PruneOf(x)) && |stack'| < |stack|)
  {
    if stack[0].node.Dir? {
      stack', recs', savings' := VisitDir(x, stack, recs, savings);
    } else {
      PendingPop(x.sep, stack, PruneOf(x));
      stack', recs', savings' := stack[1..], recs, savings;
    }
  }

  /** `cleanup_recommendations`: the walk from `path` gathers the candidates and what they
      would free; they are then sorted largest first, the first twenty listed, and the
      insights drawn from the whole list. */
  method CleanupRecommendations(fs: Node, path: string, deep: bool, now: real, isWindows: bool)
    returns (r: CleanupReport)
    ensures r == CleanupResult(fs, path, deep, now, isWindows)
  {
    var x := CtxOf(path, deep, now, isWindows);
    var stack := Start(fs, path, x.sep);
    var recs: seq<Candidate> := [];
    var savings := 0.0;
    while stack != []
      invariant recs + Recs(x, Pending(x.sep, stack, PruneOf(x))) == CandidatesUnder(fs, path, deep, now, isWindows)
      invariant savings == TotalSavings(recs)
      decreases |Pending(x.sep, stack, PruneOf(x))|, |stack|
    {
      stack, recs, savings := VisitNext(x, stack, recs, savings);
    }
    assert recs == CandidatesUnder(fs, path, deep, now, isWindows);
    var sorted := SortDesc(recs, SizeMBOf);
    r := CleanupReport(path, if deep then Deep else Standard, |sorted|, Take(sorted, MaxListed), savings,
                       savings / 1024.0, InsightsOf(savings, sorted));
  }
}
