# Atlas system advisor, modelled in Dafny

The Atlas MCP server offers advisory tools over a host's filesystem and load figures. Once
the operating-system calls are taken as inputs, each tool is a deterministic rule engine.
This project models five of them and proves what they promise:

- **Disk assessment** (`analyze_disk_usage`). It takes the total, used and free figures of
  one mount point. It grades usage on a ladder with thresholds at 70, 80 and 90 percent. It
  adds up to three recommendations, each from its own independent check.
- **System statistics health rule** (`get_system_stats`). It raises one issue per reading
  above 90 percent and sets a healthy / attention-needed status.
- **Large-file scanner** (`find_large_files`):
  - On Windows it first refuses restricted system directories, compared case-insensitively.
  - It walks the tree top-down and collects files strictly above the size threshold.
  - It stops once it has twice `max_results` files, through the inner break and then the outer one.
  - It classifies each file by a fixed extension table.
  - It sorts the files largest first, keeps `max_results` of them, and gives advice.
- **Cleanup advisor** (`cleanup_recommendations`):
  - It measures temporary directories and reports those above 1 MiB.
  - It takes every temporary directory of a root it processes out of the walk, whether or not it was reported.
  - It reports stale files above 10 MiB and, in deep mode, likely duplicates above 1 MiB.
  - It adds up the potential savings.
  - It lists the twenty largest candidates and draws its insights from all of them.
- **Health check** (`system_health_check`). It starts at 100, takes off one exclusive
  penalty tier each for CPU, memory and disk, and maps the score to a status.

## How the model is laid out

| module | file | what it holds |
|---|---|---|
| `Wrappers` | wrappers.dfy | `Option` and `Result` |
| `Strings` | strings.dfy | ASCII lower-casing and the substring, prefix and character-count helpers the tools use |
| `Paths` | paths.dfy | the POSIX form of `os.path.join`, `Path.suffix`, the root that `os.path.splitext` gives, and walk depth |
| `FileTree` | file_tree.dfy | the filesystem as a value, holding files (with size and mtime when a stat succeeds), directories and unlistable directories; path lookup; byte and file totals |
| `Walker` | walker.dfy | the `os.walk` order as a recursive specification, with a consumer that may prune `dirs`; work-list lemmas |
| `Sorting` | sorting.dfy | Python's stable `sort(reverse=True)` as an insertion sort, and the slice `[:n]` |
| `DiskUsage` | disk_usage.dfy | the disk status ladder, the recommendations and the assessment |
| `SystemStats` | system_stats.dfy | the two-rule health check of the statistics tool |
| `LargeFiles` | large_files.dfy | the large-file scanner, as a specification and as methods with loops |
| `Cleanup` | cleanup.dfy | the cleanup advisor, as a specification and as methods with loops |
| `HealthCheck` | health_check.dfy | the scoring and status of the health check |

Tree walks and accumulations are loops in their own methods, driven by a work list over the
tree. Each method is proved equal to a recursive specification function over the walk, such
as `LargeFiles.LargeFilesResult` or `Cleanup.CleanupResult`, and the tool's promises are
proved as lemmas about those functions. The ladders and tables are plain functions.

## Model

| member | source | states |
|---|---|---|
| `Strings.Lower` | atlas_mcp_server.py:173 | specification function for `str.lower()` (also at 188, 277 and 310) on ASCII letters; the ensures keeps the length |
| `Strings.Contains` | atlas_mcp_server.py:175 | specification predicate for `sub in s` (also at 334): `sub` occurs at some position of `s` |
| `Strings.EndsWith` | atlas_mcp_server.py:317 | specification predicate for `s.endswith(suffix)` |
| `DiskUsage.StatusOf` | atlas_mcp_server.py:49-56 | critical iff usage > 90, warning iff 80 < usage <= 90, concern iff 70 < usage <= 80, healthy otherwise; exactly 70, 80 or 90 stays in the lower tier |
| `DiskUsage.StatusMonotone` | atlas_mcp_server.py:50-56 | more usage never gives a milder status |
| `DiskUsage.Recommendations` | atlas_mcp_server.py:58-64 | each piece of advice is present exactly when its own condition holds (usage > 80, usage > 90, free < 1 GB), independently of the others, and they come in the fixed order, once each |
| `DiskUsage.Assess` | atlas_mcp_server.py:44-64 | the GB figures times 2^30 are the byte figures, usage percent times total is used times 100, and status and advice are those of the ladder and the checks |
| `DiskUsage.AnalyzeDiskUsage` | atlas_mcp_server.py:33-64 | on Windows "/" stands for `C:\`; the empty path passes the existence test and fails in `shutil.disk_usage` with its "No such file or directory" message; any other path that names nothing in the tree gives the "does not exist" error; a zero-size filesystem gives an error; otherwise the assessment |
| `DiskUsage.ResolvePath` | atlas_mcp_server.py:33-34 | specification function: on Windows the path "/" is replaced by `C:\`, every other path is kept |
| `SystemStats.HealthIssues` | atlas_mcp_server.py:139-144 | a high-CPU issue iff CPU > 90, a high-memory issue iff memory > 90, CPU first, independently |
| `SystemStats.HealthStatus` | atlas_mcp_server.py:145 | healthy iff neither reading is above 90 |
| `LargeFiles.CheckRestricted` | atlas_mcp_server.py:171-176 | the loop finds a restricted name in the lower-cased directory string exactly when one is there |
| `LargeFiles.CategoryOf` | atlas_mcp_server.py:189-199 | a video, archive, log, image or document file iff its extension is in that list; every other extension is other |
| `LargeFiles.ExtensionIgnoresCase` | atlas_mcp_server.py:188 | the lower-cased suffix, and so the category, is the same for a name and its lower-cased form |
| `LargeFiles.AdviceFor` | atlas_mcp_server.py:225-235 | archive advice iff more than 1 GiB was collected in all; video and older-than-365-days advice iff such files are among those returned, carrying their counts; at most three lines |
| `LargeFiles.ScanFilesTakes` | atlas_mcp_server.py:179-215 | the inner loop appends a prefix of the directory's large files: all of them unless the cap is reached, and it overshoots by at most the one file appended before the check |
| `LargeFiles.ScanEntriesTakes` | atlas_mcp_server.py:178-218 | below the cap, the outer loop collects the walk's large files in walk order, at most the cap, and all of them if the cap is never reached |
| `LargeFiles.SmallCapScan` | atlas_mcp_server.py:212-218 | with `max_results <= 0` the scan stops after the first directory, holding at most one file |
| `LargeFiles.ScanFilesConsistent` | atlas_mcp_server.py:183-209 | every collected record is strictly above the threshold and classified by its own extension, and the byte total is the sum of the records' sizes |
| `LargeFiles.CollectedFacts` | atlas_mcp_server.py:178-218 | what is collected is a consistent prefix of the walk's large files in walk order, within the cap, and all of them when the cap is not reached |
| `LargeFiles.CollectedExactly` | atlas_mcp_server.py:212-218 | with a positive cap, what is collected is exactly the first `cap` large files in walk order, or all of them when there are fewer |
| `LargeFiles.ReportFacts` | atlas_mcp_server.py:221-243 | the cut list is largest first, drawn from the large files, at most `max_results` long (empty for `max_results <= 0`), each above the threshold; `files_found` is its length |
| `LargeFiles.LargeFilesReported` | atlas_mcp_server.py:166-245 | error iff on Windows and restricted; otherwise a largest-first list drawn from the walk's large files, of length min(`max_results`, their number), each above `min_size_mb` and classified by its extension; when fewer than twice `max_results` large files exist, exactly the `max_results` largest of them, with their whole size as the total |
| `LargeFiles.EarlyStopDecides` | atlas_mcp_server.py:211-222 | with `max_results >= 1` the answer is the `max_results` largest among the first 2*`max_results` large files in walk order, and the total is their sum, whatever comes later in the walk |
| `LargeFiles.ScanDirectory` | atlas_mcp_server.py:179-215 | the inner loop with its break computes the inner-loop specification |
| `LargeFiles.Collect` | atlas_mcp_server.py:178-218 | the work-list walk with the outer break computes the walk specification |
| `LargeFiles.FindLargeFiles` | atlas_mcp_server.py:166-245 | the tool's result is `LargeFilesResult`, about which the lemmas above are proved |
| `LargeFiles.IsRestricted` | atlas_mcp_server.py:171-176 | specification predicate: one of "windows", "program files", "program files (x86)", "$recycle.bin" is a substring of the lower-cased directory string |
| `LargeFiles.ExtensionOf` | atlas_mcp_server.py:188 | specification function for `Path(file_path).suffix.lower()`, taken from the file name (a listed name holds no separator, so its suffix is that of the joined path) |
| `LargeFiles.IsLarge` | atlas_mcp_server.py:181-183 | specification predicate: a file whose size can be read and is strictly above `min_size_mb` MiB in bytes |
| `LargeFiles.AllLarge` | atlas_mcp_server.py:178-209 | reference function: the records of every large file the walk reaches, in walk order, as though collecting never stopped; the capped scan is proved against it |
| `LargeFiles.LargeIn` | atlas_mcp_server.py:179-209 | reference function: the records of every large file of one listing, in order, as though the loop never stopped |
| `LargeFiles.ConfigOf` | atlas_mcp_server.py:167-212 | specification function: the byte threshold `min_size_mb * 1024 * 1024` and the cap `max_results * 2` |
| `LargeFiles.CountCategory` | atlas_mcp_server.py:229-231 | specification function: how many of the returned files are of a category |
| `LargeFiles.CountOlderThan` | atlas_mcp_server.py:233-235 | specification function: how many of the returned files are older than the given days |
| `LargeFiles.RecordOf` | atlas_mcp_server.py:180-208 | specification function: the joined path, the size in MiB, the age in days, the lower-cased suffix and its category |
| `LargeFiles.ScanFiles` | atlas_mcp_server.py:179-215 | specification function for the inner loop: each stat'ed file above the threshold is appended and its size added, stopping right after an append that reaches twice `max_results` |
| `LargeFiles.ScanEntries` | atlas_mcp_server.py:178-218 | specification function for the outer loop: the inner loop over each walk entry in turn, stopping after an entry that leaves the count at the cap |
| `LargeFiles.ReportOf` | atlas_mcp_server.py:220-243 | specification function: the collected files sorted largest first and cut to `max_results`, the total in GiB, and the advice |
| `LargeFiles.LargeFilesResult` | atlas_mcp_server.py:166-245 | specification function for the whole tool: the restricted-directory error on Windows, else the report on the scan of the walk |
| `Sorting.SortDescSorted` | atlas_mcp_server.py:221 | the sort leaves the list non-increasing in its key |
| `Sorting.SortDescPermutes` | atlas_mcp_server.py:221 | the sort is a permutation |
| `Sorting.SortDescStable` | atlas_mcp_server.py:348 | elements with equal keys keep their order, as Python's stable sort keeps them |
| `Sorting.Take` | atlas_mcp_server.py:222 | the slice `[:n]` is a prefix of length min(n, len) for n >= 0, and drops the last `-n` elements for n < 0 |
| `Sorting.SortedPrefix` | atlas_mcp_server.py:221-222 | a cut of the sorted list is non-increasing, holds nothing the list did not, and has length min(n, len) for n >= 0 |
| `Sorting.SortDesc` | atlas_mcp_server.py:221 | specification function for `list.sort(key=..., reverse=True)` (also at 348): a stable sort, largest key first |
| `Paths.SuffixShape` | atlas_mcp_server.py:188 | a non-empty suffix starts at a dot that is neither the first nor the last character, ends the name and holds no other dot; conversely, a last dot that is neither first nor last always starts the suffix |
| `Paths.SplitExtRootShape` | atlas_mcp_server.py:333 | the root is the whole name, or the name cut at its last dot when something other than dots comes before it; conversely, whenever the last dot has a non-dot before it, the root is the name cut there |
| `Paths.ExtensionExamples` | atlas_mcp_server.py:188-333 | "movie.MP4" has the suffix ".MP4" and "report.txt" the root "report" |
| `Paths.Suffix` | atlas_mcp_server.py:188 | specification function for `Path(file_path).suffix`: from the last dot on when that dot is neither first nor last in the name, else empty |
| `Paths.SplitExtRoot` | atlas_mcp_server.py:333 | specification function for `os.path.splitext(file)[0]`: the name up to its last dot, unless only dots come before that dot |
| `Paths.Depth` | atlas_mcp_server.py:271 | specification function for `root[len(path):].count(os.sep)`, with an empty slice when the root is shorter than the path |
| `Paths.Join` | atlas_mcp_server.py:180 | specification function for `os.path.join(root, name)` (also at 278, 283 and 309): the separator is added unless the root is empty or ends with one |
| `Paths.JoinExtends` | atlas_mcp_server.py:180 | the joined path extends the root by the name, with at most one separator between |
| `Paths.DepthExtends` | atlas_mcp_server.py:271 | extending a walk root never lowers its depth |
| `Walker.WalkAllItems` | atlas_mcp_server.py:269 | descending into the subdirectories one after the other is the same as scheduling those left in `dirs` on the work list |
| `Walker.PendingPop` | atlas_mcp_server.py:269 | taking the next directory off the work list yields its entry and puts its kept subdirectories in front of the rest |
| `Walker.WalkRootsExtend` | atlas_mcp_server.py:269-273 | every root a walk reports extends the path it started from |
| `Walker.Walk` | atlas_mcp_server.py:178 | specification function for top-down `os.walk`: a directory yields `(root, dirs, files)`, then the walks of the subdirectories left in `dirs`, in listing order; a file or an unlistable directory yields nothing |
| `Walker.WalkAll` | atlas_mcp_server.py:269-305 | specification function for the walks of a listing's subdirectories, in order, skipping those the consumer removed from `dirs` |
| `Walker.Start` | atlas_mcp_server.py:178 | specification function for where `os.walk(directory)` starts: the entry the path names, or nothing (so no entries at all) when it names none |
| `Walker.Pending` | atlas_mcp_server.py:178 | specification function for `os.walk`'s work list: the entries still to come, the walk of each item in turn |
| `Walker.Kept` | atlas_mcp_server.py:276-303 | specification function for `dirs` after the consumer's removals: the subdirectories not pruned, in order; the ensures says a directory is kept iff it was listed and not pruned |
| `Walker.Items` | atlas_mcp_server.py:178 | specification function: the work items `os.walk` schedules for the subdirectories left in `dirs`, each at its joined path |
| `FileTree.Subdirs` | atlas_mcp_server.py:178 | specification function for `os.walk`'s `dirs`: the entries of a listing that are directories, in order; the ensures says exactly those |
| `FileTree.FilesOf` | atlas_mcp_server.py:178 | specification function for `os.walk`'s `files`: the entries that are files, in order; the ensures says exactly those |
| `FileTree.Child` | atlas_mcp_server.py:36-37 | specification function for finding one path component in a listing; the ensures says a found child is in the listing with that name, and none is found only when no entry has it |
| `FileTree.Lookup` | atlas_mcp_server.py:36-37 | specification function: following path components from a node, through directories only, to the child with each name in turn; none if one is missing |
| `FileTree.Resolve` | atlas_mcp_server.py:36-37 | specification function for the existence test and for where a walk starts: the empty path names nothing (`AnalyzeDiskUsage` handles "" before it, since `Path("")` exists), any other path is looked up by its components, split on the platform separator only |
| `FileTree.Bytes` | atlas_mcp_server.py:282-288 | specification function: the summed sizes of the files at or below a node whose size can be read, as the measuring sub-walk adds them |
| `FileTree.FileCount` | atlas_mcp_server.py:282-288 | specification function: how many files at or below a node have a readable size, as the sub-walk counts them |
| `Cleanup.TempNamesLowered` | atlas_mcp_server.py:266-277 | the lower-cased temporary-directory list is the list the names are compared with |
| `Cleanup.ActionOf` | atlas_mcp_server.py:292-342 | the action follows the kind of candidate alone: safe to delete, consider truncating or compressing, manual review |
| `Cleanup.RiskOf` | atlas_mcp_server.py:292-342 | risk low iff temporary directory, medium iff stale file, high iff likely duplicate |
| `Cleanup.SavingsByKind` | atlas_mcp_server.py:301-330 | the savings are the temporary directories' sizes plus 0.8 times the stale files' sizes; duplicates add nothing |
| `Cleanup.SavingsBounds` | atlas_mcp_server.py:301-330 | the savings are never negative and never more than the candidates' sizes together |
| `Cleanup.CandidatesAbove` | atlas_mcp_server.py:290-333 | every candidate clears its kind's threshold: a temporary directory above 1 MiB, a stale file above 10 MiB, a duplicate above 1 MiB and only in deep mode |
| `Cleanup.InsightsFacts` | atlas_mcp_server.py:350-361 | the significant-potential insight iff savings > 1000 MiB; the temporary and stale-file insights iff there is one, carrying the count |
| `Cleanup.ListedFacts` | atlas_mcp_server.py:348-367 | the list shown is the first min(20, n) of the sorted candidates, largest first |
| `Cleanup.ReportFacts` | atlas_mcp_server.py:348-372 | the count is that of every candidate, the list the largest of them (at most 20, largest first), the savings and the insights are taken over every candidate rather than over the list shown, and savings in GB times 1024 is savings in MB |
| `Cleanup.KeptUnprocessed` | atlas_mcp_server.py:271-273 | a root too deep to process keeps every subdirectory, temporary ones included, so the walk goes on below it |
| `Cleanup.QuietBelow` | atlas_mcp_server.py:271-273 | outside deep mode, nothing at or below a root more than three separators down gives a candidate, although the walk still descends there |
| `Cleanup.TempContentsIgnored` | atlas_mcp_server.py:276-305 | the candidates depend on what lies inside a temporary directory only through its total size and file count: no file below one is ever a candidate, whether or not it was reported and whether or not its parent was processed |
| `Cleanup.CleanupReported` | atlas_mcp_server.py:262-372 | the tool's report on the walk: full count, at most 20 listed largest first, each above its threshold, savings as by kind and within the sizes, insights over every candidate; with `TempDirReported`, `StaleFileReported` and `DuplicateReported`, the count covers every qualifying temporary directory and file under a processed root |
| `Cleanup.TempDirReported` | atlas_mcp_server.py:276-301 | under a processed root of the walk, every subdirectory with a temporary name holding more than 1 MiB is a candidate, with its joined path, size in MiB and file count |
| `Cleanup.StaleFileReported` | atlas_mcp_server.py:308-331 | under a processed root of the walk, every file that can be stat'ed, has a stale extension and is larger than 10 MiB is a candidate, with its joined path, size in MiB and age |
| `Cleanup.DuplicateReported` | atlas_mcp_server.py:332-343 | in deep mode, every file of the walk that can be stat'ed, is larger than 1 MiB and has a sibling holding its extension-less name is a candidate |
| `Cleanup.FileCandidateReported` | atlas_mcp_server.py:269-345 | a candidate of a file of a processed root's listing is a candidate of the walk |
| `Cleanup.TempRecsHas` | atlas_mcp_server.py:276-305 | each subdirectory's candidate is among those of the `dirs` loop |
| `Cleanup.FileRecsHas` | atlas_mcp_server.py:308-345 | each file's candidates are among those of the `files` loop |
| `Cleanup.RecsHas` | atlas_mcp_server.py:269-345 | each walk entry's candidates are among those of the whole walk |
| `Cleanup.MeasureTree` | atlas_mcp_server.py:282-288 | the sub-walk sums the sizes of the files it can stat and counts them |
| `Cleanup.CheckTempDir` | atlas_mcp_server.py:277-301 | one subdirectory gives the temporary-directory candidate of the specification and adds its savings |
| `Cleanup.CheckTempDirs` | atlas_mcp_server.py:276-305 | the loop over `dirs` appends the temporary-directory candidates and leaves exactly the non-temporary subdirectories in the listing |
| `Cleanup.CheckFile` | atlas_mcp_server.py:308-345 | one file gives the stale-file candidate, then the duplicate candidate, of the specification, and adds their savings |
| `Cleanup.CheckFiles` | atlas_mcp_server.py:308-345 | the loop over `files` appends the file candidates of the specification |
| `Cleanup.ProcessRoot` | atlas_mcp_server.py:276-345 | a processed root gives its temporary-directory candidates, then its file candidates, keeps exactly its non-temporary subdirectories, and adds their savings |
| `Cleanup.VisitRoot` | atlas_mcp_server.py:269-345 | a root too deep to process gives nothing and keeps its listing; any other root gives its temporary directories, then its files |
| `Cleanup.VisitNext` | atlas_mcp_server.py:269-345 | one turn of the walk keeps the candidates gathered plus those still to come equal to the walk's, and the savings equal to those of the candidates gathered |
| `Cleanup.CleanupRecommendations` | atlas_mcp_server.py:262-372 | the tool's result is `CleanupResult`, about which the lemmas above are proved |
| `Cleanup.IsStaleName` | atlas_mcp_server.py:267-317 | specification function: the lower-cased name ends with ".log", ".tmp", ".bak" or ".old" |
| `Cleanup.HasSibling` | atlas_mcp_server.py:333-334 | specification function for the duplicate heuristic: the name without its extension is a substring of some other name of the same listing |
| `Cleanup.TempRec` | atlas_mcp_server.py:276-301 | specification function: a subdirectory whose lower-cased name is a temporary one and whose sub-walk holds more than 1 MiB gives one `temp_directory` candidate with its size in MiB and file count |
| `Cleanup.FileRec` | atlas_mcp_server.py:308-345 | specification function: a file that can be stat'ed gives a `log_file` candidate when stale and above 10 MiB, then, in deep mode, a `potential_duplicate` candidate when above 1 MiB with a sibling; otherwise nothing |
| `Cleanup.EntryRecs` | atlas_mcp_server.py:269-345 | specification function: a root too deep outside deep mode gives nothing, any other root its temporary-directory candidates, then its file candidates |
| `Cleanup.InsightsOf` | atlas_mcp_server.py:350-361 | specification function: the savings insight above 1000 MB, then the temporary-directory and log-file counts when positive |
| `Cleanup.CleanupResult` | atlas_mcp_server.py:262-372 | specification function for the whole tool: the report on every candidate of the walk of `path` |
| `Cleanup.Processed` | atlas_mcp_server.py:270-273 | specification predicate for the depth bound: a root is processed in deep mode, or when at most three separators follow the top path in it |
| `Cleanup.IsTempName` | atlas_mcp_server.py:266-277 | specification predicate: the lower-cased directory name is one of the lower-cased temporary-directory names |
| `Cleanup.PruneOf` | atlas_mcp_server.py:276-303 | specification function for `dirs.remove(dir_name)`: under a processed root, a subdirectory with a temporary name is taken out of the walk, measured or not; nothing is taken out under an unprocessed root |
| `Cleanup.Savings` | atlas_mcp_server.py:301-330 | specification function: a temporary directory adds all its size in MiB, a stale file 80% of it, a duplicate nothing |
| `Cleanup.TotalSavings` | atlas_mcp_server.py:301-330 | specification function: `potential_savings_mb` as the sum of each candidate's savings |
| `Cleanup.TempRecs` | atlas_mcp_server.py:276-305 | specification function for the loop over `dirs[:]`: the temporary-directory candidates of the listing, in listing order |
| `Cleanup.FileRecs` | atlas_mcp_server.py:308-345 | specification function for the loop over `files`: the candidates of each file in listing order |
| `Cleanup.ReportOf` | atlas_mcp_server.py:347-372 | specification function: the candidates sorted largest first, `recommendations_count` over all of them, the `[:20]` cut, the savings in MB and GB, and the insights from the sorted list |
| `Cleanup.CandidatesUnder` | atlas_mcp_server.py:269-345 | specification function for the whole walk loop: the candidates of every entry of the pruned walk of `path`, in walk order |
| `Cleanup.Recs` | atlas_mcp_server.py:269-345 | specification function: the candidates of a sequence of walk entries, entry by entry |
| `Cleanup.CountTemp` | atlas_mcp_server.py:355-357 | specification function: how many candidates are temporary directories |
| `Cleanup.CountLog` | atlas_mcp_server.py:359-361 | specification function: how many candidates are stale files |
| `Cleanup.EndsWithAny` | atlas_mcp_server.py:317 | specification predicate for `any(s.endswith(ext) for ext in ...)` |
| `HealthCheck.CpuRule` | atlas_mcp_server.py:410-419 | a CPU penalty iff statistics are available and CPU > 70: 20 points above 90, else 10 |
| `HealthCheck.MemoryRule` | atlas_mcp_server.py:421-430 | a memory penalty iff statistics are available and memory > 80: 25 points above 90, else 15 |
| `HealthCheck.DiskRule` | atlas_mcp_server.py:432-443 | a disk penalty iff some disk is above 80: 30 points when some disk is above 90, else 15 |
| `HealthCheck.CountAbove` | atlas_mcp_server.py:433-434 | the count is positive iff some disk is above the threshold, and never more than the disks |
| `HealthCheck.Successful` | atlas_mcp_server.py:396-403 | exactly the analyses that did not end in an error are kept |
| `HealthCheck.CollectDisks` | atlas_mcp_server.py:396-403 | the loop keeps exactly the analyses that did not end in an error, in order |
| `HealthCheck.PenaltiesOncePerResource` | atlas_mcp_server.py:406-443 | at most one penalty per resource, CPU before memory before disk, between 0 and 75 points in all |
| `HealthCheck.StatusOf` | atlas_mcp_server.py:445-455 | excellent iff score >= 90, good iff 70 <= score < 90, fair iff 50 <= score < 70, poor iff 30 <= score < 50, critical below 30 |
| `HealthCheck.StatusMonotone` | atlas_mcp_server.py:445-455 | a higher score never gives a worse status |
| `HealthCheck.HighCpuOnlyExample` | atlas_mcp_server.py:406-455 | CPU at 95, memory at 50 and no disk data score 80, status good |
| `HealthCheck.CheckCpu` | atlas_mcp_server.py:410-419 | the CPU step takes off the rule's points and appends its issue and advice |
| `HealthCheck.CheckMemory` | atlas_mcp_server.py:421-430 | the memory step takes off the rule's points and appends its issue and advice |
| `HealthCheck.CheckDisks` | atlas_mcp_server.py:432-443 | the disk step takes off the rule's points and appends its issue (with the number of disks in the tier) and advice |
| `HealthCheck.SystemHealthCheck` | atlas_mcp_server.py:389-455 | the score is 100 minus the points of the rules that fire, always in [25, 100]; issues and advice are those of the rules in order; the status is read off the score |
| `HealthCheck.Penalties` | atlas_mcp_server.py:406-443 | specification function: the penalties that fire, CPU rule, then memory rule, then disk rule |
| `HealthCheck.TotalPoints` | atlas_mcp_server.py:406-443 | specification function: the points taken off `health_score` by a sequence of penalties |
| `HealthCheck.IssuesOf` | atlas_mcp_server.py:406-443 | specification function: the `issues` appended by a sequence of penalties, one each |
| `HealthCheck.AdviceOf` | atlas_mcp_server.py:406-443 | specification function: the `recommendations` appended by a sequence of penalties, for those that carry one |

## Code and description disagree

- `find_large_files` and `cleanup_recommendations` on a directory that does not exist. One
  would expect an error result, as `analyze_disk_usage` returns for a missing path. The code
  calls `os.walk`, which yields nothing for such a path, so the code returns an empty report. The model follows the code: `Start`
  gives an empty work list.
- The depth bound at atlas_mcp_server.py:271-273 uses `continue`. It skips processing a
  root more than three separators below the top, but it leaves `dirs` untouched, so the
  walk goes on below that root. Temporary directories under such a root are not pruned
  either. The model does this; `Cleanup.KeptUnprocessed` and `Cleanup.QuietBelow` state it.

## Left out

- The MCP transport: the tool decorators, `mcp.run` and the start-up prints. This is protocol plumbing.
- psutil, `shutil.disk_usage` and `os.getloadavg`. Their readings are inputs: `DiskTotals`, and `Metrics` as `Option<Metrics>` (None stands for a statistics call that failed). The I/O and network counters and their "unavailable" fallbacks are left out: no rule reads them.
- The drive and mount-point enumeration of the health check. The list of per-disk analysis results is an input.
- `time.time()` and `time.ctime`. The clock is the parameter `now`. The `last_modified` string is kept as the raw mtime, and the scan timestamps are not modelled.
- Rounding. `round(..., 2)` and `round(..., 1)` are replaced by exact reals, so thresholds compare unrounded figures. For example, a disk at 90.004 percent is critical here but not in the code, whose rounded 90.0 is not above 90. Ties in the size sort can also differ, because the code sorts on rounded sizes.
- Case folding is ASCII only. `str.lower()` also lower-cases non-ASCII letters.
- Paths are joined POSIX-style with the platform separator. Windows drive and UNC rules of `ntpath.join` are not modelled, and lookup by path is relative to the tree's root with no working directory. On Windows only the backslash `\` separates components, so a path written with `/` such as "C:/data" names nothing here, while the code walks it.
- Symbolic links are not modelled. By default `os.walk` does not follow them into directories.
- Stat failures are modelled as a file without size and mtime. Size and mtime are read together, so a file whose size can be read but whose mtime cannot is skipped by the measuring sub-walk here, while the code counts it.
- `dirs.remove(name)` is modelled as keeping the subdirectories whose name is not a temporary one. This is the same as the code because names in a listing are unique.
- The in-place `list.sort` is modelled by the stable sort function `Sorting.SortDesc`. It is not an in-place array method.
- Path components "." and ".." are not resolved, and there is no working directory. "." is looked up as an entry named ".", which a listing does not hold. So `find_large_files(".")` and `cleanup_recommendations(".")` give empty reports here, while the code walks the working directory; and `AnalyzeDiskUsage` gives the "does not exist" error for ".", while the code, for which `Path(".")` exists, assesses the working directory's filesystem. The empty path is the exception for `analyze_disk_usage`: it is modelled as the code treats it, passing the existence test and failing in `shutil.disk_usage`.
- The tools' default arguments (`path="/"`, `min_size_mb=100`, `max_results=20`, `deep_analysis=False`) are not modelled. Every argument is explicit.
- The code reads `time.time()` anew for each file it ages (atlas_mcp_server.py:185 and 314). The model fixes one clock reading `now` for the whole scan, so ages near a threshold may differ from a scan that runs for a while.
- The health report's `summary` string and its pass-through of `system_stats` (atlas_mcp_server.py:457-466) are not modelled. Only the score, status, issues and recommendations are.
- The generic `except Exception` wrappers map an unexpected exception to an error message. Only the error cases the code raises on purpose are modelled: the restricted directory, the missing path, and the zero-size filesystem.
