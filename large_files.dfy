/** `find_large_files`: the files above a size threshold in a directory tree, classified by
    extension, largest first, with advice derived from them. */
module LargeFiles {
  import opened Wrappers
  import opened Strings
  import opened Paths
  import opened FileTree
  import opened Walker
  import opened Sorting

  /** Directory names that a scan on Windows refuses to enter, in lower case. */
  const RestrictedDirs: seq<string> := ["windows", "program files", "program files (x86)", "$recycle.bin"]

  /** The directory string names a restricted directory, ignoring case. */
  predicate IsRestricted(directory: string)
  {
    exists k :: 0 <= k < |RestrictedDirs| && Contains(Lower(directory), RestrictedDirs[k])
  }

  datatype Category = Video | Archive | LogText | Image | Document | Other

  const VideoExtensions: seq<string> := [".mp4", ".avi", ".mkv", ".mov", ".wmv"]
  const ArchiveExtensions: seq<string> := [".zip", ".rar", ".7z", ".tar", ".gz"]
  const LogExtensions: seq<string> := [".log", ".txt"]
  const ImageExtensions: seq<string> := [".jpg", ".png", ".bmp", ".gif", ".tiff"]
  const DocumentExtensions: seq<string> := [".pdf", ".doc", ".docx"]

  /** The extension table, checked list by list; anything not listed is `Other`. */
  function CategoryOf(extension: string): (cat: Category)
    ensures cat == Video <==> extension in VideoExtensions
    ensures cat == Archive <==> extension in ArchiveExtensions
    ensures cat == LogText <==> extension in LogExtensions
    ensures cat == Image <==> extension in ImageExtensions
    ensures cat == Document <==> extension in DocumentExtensions
  {
    if extension in VideoExtensions then Video
    else if extension in ArchiveExtensions then Archive
    else if extension in LogExtensions then LogText
    else if extension in ImageExtensions then Image
    else if extension in DocumentExtensions then Document
    else Other
  }

  /** The lower-cased suffix a file is classified by. */
  function ExtensionOf(name: string): string
  {
    Lower(Suffix(name))
  }

  /** Classification ignores the case of the (ASCII) name. */
  lemma ExtensionIgnoresCase(name: string)
    ensures ExtensionOf(Lower(name)) == ExtensionOf(name)
    ensures CategoryOf(ExtensionOf(Lower(name))) == CategoryOf(ExtensionOf(name))
  {
    SuffixLower(name);
    LowerIdempotent(Suffix(name));
  }

  datatype FileRecord = FileRecord(
    path: string,
    sizeMB: real,
    ageDays: real,
    extension: string,
    category: Category,
    modified: real)

  datatype Advice =
    | ArchiveOrCompressOldFiles
    | CompressVideos(count: nat)
    | FilesOlderThanAYear(count: nat)

  /** The place of each kind of advice in the report: archive, videos, old files. */
  function Rank(a: Advice): nat
  {
    match a
    case ArchiveOrCompressOldFiles => 0
    case CompressVideos(_) => 1
    case FilesOlderThanAYear(_) => 2
  }

  datatype LargeFileReport = LargeFileReport(
    directory: string,
    minSizeMB: int,
    filesFound: nat,
    totalSizeGB: real,
    files: seq<FileRecord>,
    recommendations: seq<Advice>)

  function SizeKey(f: FileRecord): real
  {
    f.sizeMB
  }

  /** What stays fixed during one scan: the separator, the size threshold in bytes, the
      number of files after which collecting stops (twice the result cap), and the clock. */
  datatype Config = Config(sep: char, minBytes: int, cap: int, now: real)

  /** The collected records and the sum of their sizes in bytes. */
  datatype Scan = Scan(files: seq<FileRecord>, totalBytes: nat)

  /** A file that can be stat'ed and is strictly larger than the threshold. */
  predicate IsLarge(c: Config, f: Node)
  {
    f.File? && f.info.Some? && f.info.value.size > c.minBytes
  }

  /** The record for a large file found in directory `root`. */
  function RecordOf(c: Config, root: string, f: Node): (r: FileRecord)
    requires f.File? && f.info.Some?
  {
    var extension := ExtensionOf(f.name);
    FileRecord(Join(c.sep, root, f.name), InMiB(f.info.value.size),
               AgeInDays(c.now, f.info.value.mtime), extension, CategoryOf(extension), f.info.value.mtime)
  }

  /** The inner loop over one directory's files: append each large file, and stop right
      after an append that brings the count to the cap. */
  function ScanFiles(c: Config, root: string, files: seq<Node>, acc: Scan): Scan
    decreases |files|
  {
    if files == [] then acc
    else if IsLarge(c, files[0]) then
      var next := Scan(acc.files + [RecordOf(c, root, files[0])], acc.totalBytes + files[0].info.value.size);
      if |next.files| >= c.cap then next else ScanFiles(c, root, files[1..], next)
    else ScanFiles(c, root, files[1..], acc)
  }

  /** The outer loop over the walk: after each directory, stop once the cap is reached. */
  function ScanEntries(c: Config, es: seq<Entry>, acc: Scan): Scan
    decreases |es|
  {
    if es == [] then acc
    else
      var next := ScanFiles(c, es[0].root, es[0].files, acc);
      if |next.files| >= c.cap then next else ScanEntries(c, es[1..], next)
  }

  function CountCategory(files: seq<FileRecord>, cat: Category): nat
  {
    if files == [] then 0 else (if files[0].category == cat then 1 else 0) + CountCategory(files[1..], cat)
  }

  function CountOlderThan(files: seq<FileRecord>, days: real): nat
  {
    if files == [] then 0 else (if files[0].ageDays > days then 1 else 0) + CountOlderThan(files[1..], days)
  }

  /** The advice: one line for more than 1 GiB collected in all, then the video files and
      the files older than a year among the files returned. */
  function AdviceFor(totalBytes: nat, files: seq<FileRecord>): (r: seq<Advice>)
    ensures ArchiveOrCompressOldFiles in r <==> totalBytes > GiB
    ensures forall a :: a in r && a.CompressVideos? ==> a.count == CountCategory(files, Video) > 0
    ensures CountCategory(files, Video) > 0 ==> CompressVideos(CountCategory(files, Video)) in r
    ensures forall a :: a in r && a.FilesOlderThanAYear? ==> a.count == CountOlderThan(files, 365.0) > 0
    ensures CountOlderThan(files, 365.0) > 0 ==> FilesOlderThanAYear(CountOlderThan(files, 365.0)) in r
    ensures forall i, j :: 0 <= i < j < |r| ==> Rank(r[i]) < Rank(r[j])
    ensures |r| <= 3
  {
    var videos := CountCategory(files, Video);
    var aged := CountOlderThan(files, 365.0);
    (if totalBytes > GiB then [ArchiveOrCompressOldFiles] else [])
      + (if videos > 0 then [CompressVideos(videos)] else [])
      + (if aged > 0 then [FilesOlderThanAYear(aged)] else [])
  }

  /** The report a scan gives once collecting has stopped. */
  function ReportOf(directory: string, minSizeMB: int, maxResults: int, s: Scan): LargeFileReport
  {
    var files := Take(SortDesc(s.files, SizeKey), maxResults);
    LargeFileReport(directory, minSizeMB, |files|, s.totalBytes as real / GiB as real, files,
                    AdviceFor(s.totalBytes, files))
  }

  function ConfigOf(minSizeMB: int, maxResults: int, now: real, isWindows: bool): Config
  {
    Config(Sep(isWindows), minSizeMB * MiB, maxResults * 2, now)
  }

  /** What `find_large_files` answers for a tree, a directory and its arguments. */
  function LargeFilesResult(fs: Node, directory: string, minSizeMB: int, maxResults: int, now: real,
                            isWindows: bool): Result<LargeFileReport>
  {
    if isWindows && IsRestricted(directory) then Err("Cannot scan system directory: " + directory)
    else
      var c := ConfigOf(minSizeMB, maxResults, now, isWindows);
      var es := Pending(c.sep, Start(fs, directory, c.sep), NoPrune);
      Ok(ReportOf(directory, minSizeMB, maxResults, ScanEntries(c, es, Scan([], 0))))
  }

  /** Every large file of a listing, in listing order, as though collecting never stopped. */
  function LargeIn(c: Config, root: string, files: seq<Node>): seq<FileRecord>
  {
    if files == [] then []
    else (if IsLarge(c, files[0]) then [RecordOf(c, root, files[0])] else []) + LargeIn(c, root, files[1..])
  }

  /** Every large file a walk reaches, in walk order. */
  function AllLarge(c: Config, es: seq<Entry>): seq<FileRecord>
  {
    if es == [] then [] else LargeIn(c, es[0].root, es[0].files) + AllLarge(c, es[1..])
  }

  function Min(a: int, b: int): int
  {
    if a <= b then a else b
  }

  function Max(a: int, b: int): int
  {
    if a <= b then b else a
  }

  /** Moving the boundary between a prefix and what follows it. */
  lemma PrefixShift(a: seq<FileRecord>, b: seq<FileRecord>, res: seq<FileRecord>, tail: seq<FileRecord>)
    requires a + b <= res <= (a + b) + tail
    ensures a <= res <= a + (b + tail)
    ensures res == (a + b) + tail ==> res == a + (b + tail)
  {
    assert (a + b) + tail == a + (b + tail);
  }

  /** The inner loop appends a prefix of the listing's large files: all of them, unless the
      cap is reached first (and at least one, if there is one, since the cap is checked
      only after an append). */
  lemma {:induction false} ScanFilesTakes(c: Config, root: string, files: seq<Node>, acc: Scan)
    ensures var res := ScanFiles(c, root, files, acc).files;
      && acc.files <= res <= acc.files + LargeIn(c, root, files)
      && |res| <= Max(c.cap, |acc.files| + 1)
      && (|res| < Max(c.cap, |acc.files| + 1) ==> res == acc.files + LargeIn(c, root, files))
    decreases |files|
  {
    if files != [] {
      var rest := LargeIn(c, root, files[1..]);
      ScanFilesStep(c, root, files, acc);
      if IsLarge(c, files[0]) {
        var r := RecordOf(c, root, files[0]);
        var next := Scan(acc.files + [r], acc.totalBytes + files[0].info.value.size);
        var res := ScanFiles(c, root, files, acc).files;
        assert LargeIn(c, root, files) == [r] + rest;
        if |next.files| < c.cap {
          ScanFilesTakes(c, root, files[1..], next);
          assert res == ScanFiles(c, root, files[1..], next).files;
        } else {
          assert res == next.files;
        }
        PrefixShift(acc.files, [r], res, rest);
      } else {
        assert LargeIn(c, root, files) == rest;
        ScanFilesTakes(c, root, files[1..], acc);
      }
    }
  }

  /** While below the cap, the outer loop collects the walk's large files in order until
      the cap is reached, and all of them if it never is. */
  lemma {:induction false} ScanEntriesTakes(c: Config, es: seq<Entry>, acc: Scan)
    requires |acc.files| < c.cap
    ensures var res := ScanEntries(c, es, acc).files;
      && acc.files <= res <= acc.files + AllLarge(c, es)
      && |res| <= c.cap
      && (|res| < c.cap ==> res == acc.files + AllLarge(c, es))
    decreases |es|
  {
    if es != [] {
      var l0 := LargeIn(c, es[0].root, es[0].files);
      var rest := AllLarge(c, es[1..]);
      var next := ScanFiles(c, es[0].root, es[0].files, acc);
      ScanFilesTakes(c, es[0].root, es[0].files, acc);
      assert AllLarge(c, es) == l0 + rest;
      assert acc.files + AllLarge(c, es) == (acc.files + l0) + rest;
      if |next.files| < c.cap {
        assert next.files == acc.files + l0;
        ScanEntriesTakes(c, es[1..], next);
      }
    }
  }

  /** With a cap of zero or less (`maxResults <= 0`) the scan stops after the first
      directory, holding at most one file. */
  lemma SmallCapScan(c: Config, es: seq<Entry>)
    requires c.cap <= 0
    ensures |ScanEntries(c, es, Scan([], 0)).files| <= 1
  {
    if es != [] {
      ScanFilesTakes(c, es[0].root, es[0].files, Scan([], 0));
    }
  }

  /** The sizes of the collected records, in MiB. */
  function SumMB(files: seq<FileRecord>): real
  {
    if files == [] then 0.0 else SumMB(files[..|files| - 1]) + files[|files| - 1].sizeMB
  }

  /** A record built for a large file: above the threshold, classified by its own extension. */
  predicate WellFormed(c: Config, r: FileRecord)
  {
    r.sizeMB * (MiB as real) > c.minBytes as real && r.category == CategoryOf(r.extension)
  }

  /** A scan whose byte total is the sum of its records' sizes and whose records are all well formed. */
  predicate Consistent(c: Config, s: Scan)
  {
    s.totalBytes as real == SumMB(s.files) * (MiB as real) && forall r :: r in s.files ==> WellFormed(c, r)
  }

  lemma AppendRecord(c: Config, acc: Scan, f: Node, root: string)
    requires Consistent(c, acc) && IsLarge(c, f)
    ensures Consistent(c, Scan(acc.files + [RecordOf(c, root, f)], acc.totalBytes + f.info.value.size))
  {
    var r := RecordOf(c, root, f);
    var files := acc.files + [r];
    assert files[..|files| - 1] == acc.files;
    assert r.sizeMB * (MiB as real) == f.info.value.size as real;
  }

  lemma {:induction false} ScanFilesConsistent(c: Config, root: string, files: seq<Node>, acc: Scan)
    requires Consistent(c, acc)
    ensures Consistent(c, ScanFiles(c, root, files, acc))
    decreases |files|
  {
    if files != [] {
      ScanFilesStep(c, root, files, acc);
      if IsLarge(c, files[0]) {
        AppendRecord(c, acc, files[0], root);
        ScanFilesConsistent(c, root, files[1..],
          Scan(acc.files + [RecordOf(c, root, files[0])], acc.totalBytes + files[0].info.value.size));
      } else {
        ScanFilesConsistent(c, root, files[1..], acc);
      }
    }
  }

  lemma {:induction false} ScanEntriesConsistent(c: Config, es: seq<Entry>, acc: Scan)
    requires Consistent(c, acc)
    ensures Consistent(c, ScanEntries(c, es, acc))
    decreases |es|
  {
    if es != [] {
      ScanFilesConsistent(c, es[0].root, es[0].files, acc);
      ScanEntriesConsistent(c, es[1..], ScanFiles(c, es[0].root, es[0].files, acc));
    }
  }

  lemma {:induction false} CountCategoryBound(files: seq<FileRecord>, cat: Category)
    ensures CountCategory(files, cat) <= |files|
  {
    if files != [] {
      CountCategoryBound(files[1..], cat);
    }
  }

  lemma {:induction false} CountOlderThanBound(files: seq<FileRecord>, days: real)
    ensures CountOlderThan(files, days) <= |files|
  {
    if files != [] {
      CountOlderThanBound(files[1..], days);
    }
  }

  /** Every large file the walk of `directory` reaches, in walk order. */
  function LargeUnder(fs: Node, directory: string, c: Config): seq<FileRecord>
  {
    AllLarge(c, Pending(c.sep, Start(fs, directory, c.sep), NoPrune))
  }

  /** What the walk collects before it stops: a well-formed prefix of the large files,
      of at most the cap when the cap is positive, and all of them when the cap is not reached. */
  lemma CollectedFacts(c: Config, es: seq<Entry>)
    ensures var s := ScanEntries(c, es, Scan([], 0));
      && Consistent(c, s)
      && s.files <= AllLarge(c, es)
      && (c.cap <= 0 ==> |s.files| <= 1)
      && (c.cap > 0 ==> |s.files| <= c.cap)
      && (|s.files| < c.cap ==> s.files == AllLarge(c, es))
  {
    ScanEntriesConsistent(c, es, Scan([], 0));
    if c.cap > 0 {
      ScanEntriesTakes(c, es, Scan([], 0));
      assert [] + AllLarge(c, es) == AllLarge(c, es);
    } else {
      SmallCapScan(c, es);
      if es != [] {
        ScanFilesTakes(c, es[0].root, es[0].files, Scan([], 0));
        assert [] + LargeIn(c, es[0].root, es[0].files) == LargeIn(c, es[0].root, es[0].files);
        assert AllLarge(c, es) == LargeIn(c, es[0].root, es[0].files) + AllLarge(c, es[1..]);
      }
    }
  }

  /** A record that is larger than the threshold in bytes is larger than it in MiB. */
  lemma AboveInMiB(r: FileRecord, minSizeMB: int)
    requires r.sizeMB * (MiB as real) > (minSizeMB * MiB) as real
    ensures r.sizeMB > minSizeMB as real
  {
  }

  /** The total in GiB is the sum of the sizes in MiB, divided by 1024. */
  lemma TotalInGiB(totalBytes: nat, sumMB: real)
    requires totalBytes as real == sumMB * (MiB as real)
    ensures totalBytes as real / GiB as real * 1024.0 == sumMB
  {
  }

  /** A prefix holds no more of each element than the whole sequence. */
  lemma PrefixMultiset(a: seq<FileRecord>, b: seq<FileRecord>)
    requires a <= b
    ensures multiset(a) <= multiset(b)
  {
    assert b == a + b[|a|..];
  }

  /** Cutting the sorted collected records to `maxResults`: how many are kept. */
  lemma CutLength(collected: seq<FileRecord>, all: seq<FileRecord>, maxResults: int)
    requires |collected| <= |all|
    requires maxResults <= 0 ==> |collected| <= 1
    requires maxResults > 0 ==> |collected| <= 2 * maxResults
    requires |collected| < 2 * maxResults ==> |collected| == |all|
    ensures var files := Take(SortDesc(collected, SizeKey), maxResults);
      && (maxResults <= 0 ==> files == [])
      && (maxResults >= 1 ==> |files| == Min(maxResults, |all|))
  {
    SortDescPermutes(collected, SizeKey);
  }

  /** Every record of a consistent scan, and so of any part of it, passed the threshold. */
  lemma CollectedAbove(c: Config, minSizeMB: int, s: Scan, files: seq<FileRecord>)
    requires c.minBytes == minSizeMB * MiB
    requires Consistent(c, s) && multiset(files) <= multiset(s.files)
    ensures forall f :: f in files ==> f.sizeMB > minSizeMB as real && f.category == CategoryOf(f.extension)
  {
    forall f | f in files
      ensures f.sizeMB > minSizeMB as real && f.category == CategoryOf(f.extension)
    {
      assert f in multiset(files);
      assert f in s.files;
      assert WellFormed(c, f);
      AboveInMiB(f, minSizeMB);
    }
  }

  /** The report drawn from a collected prefix of the large files `all`. */
  lemma ReportFacts(c: Config, directory: string, minSizeMB: int, maxResults: int, s: Scan,
                    all: seq<FileRecord>)
    requires c.minBytes == minSizeMB * MiB && c.cap == maxResults * 2
    requires Consistent(c, s) && s.files <= all
    requires c.cap <= 0 ==> |s.files| <= 1
    requires c.cap > 0 ==> |s.files| <= c.cap
    requires |s.files| < c.cap ==> s.files == all
    ensures var rep := ReportOf(directory, minSizeMB, maxResults, s);
      && rep.filesFound == |rep.files|
      && NonIncreasing(rep.files, SizeKey)
      && multiset(rep.files) <= multiset(all)
      && (forall f :: f in rep.files ==> f.sizeMB > minSizeMB as real && f.category == CategoryOf(f.extension))
      && (maxResults <= 0 ==> rep.files == [])
      && (maxResults >= 1 ==> |rep.files| == Min(maxResults, |all|))
      && (|all| < 2 * maxResults ==>
            rep.files == Take(SortDesc(all, SizeKey), maxResults)
            && rep.totalSizeGB * 1024.0 == SumMB(all))
      && CountCategory(rep.files, Video) <= rep.filesFound
      && CountOlderThan(rep.files, 365.0) <= rep.filesFound
  {
    var files := Take(SortDesc(s.files, SizeKey), maxResults);
    CutLength(s.files, all, maxResults);
    SortedPrefix(s.files, SizeKey, maxResults);
    PrefixMultiset(s.files, all);
    CollectedAbove(c, minSizeMB, s, files);
    TotalInGiB(s.totalBytes, SumMB(s.files));
    CountCategoryBound(files, Video);
    CountOlderThanBound(files, 365.0);
  }

  /** Outside a restricted directory the tool answers with a report: found count and
      list agree, the list is largest first, within `maxResults` and drawn from the large
      files the walk reaches, each above the threshold and classified by its extension; when
      the walk holds fewer than twice `maxResults` large files, the report is exactly the
      `maxResults` largest of them and its total is their sum. */
  lemma LargeFilesReported(fs: Node, directory: string, minSizeMB: int, maxResults: int, now: real,
                           isWindows: bool)
    ensures var r := LargeFilesResult(fs, directory, minSizeMB, maxResults, now, isWindows);
      r.Err? <==> isWindows && IsRestricted(directory)
    ensures var r := LargeFilesResult(fs, directory, minSizeMB, maxResults, now, isWindows);
      var all := LargeUnder(fs, directory, ConfigOf(minSizeMB, maxResults, now, isWindows));
      r.Ok? ==>
        && r.value.filesFound == |r.value.files|
        && NonIncreasing(r.value.files, SizeKey)
        && multiset(r.value.files) <= multiset(all)
        && (forall f :: f in r.value.files ==> f.sizeMB > minSizeMB as real && f.category == CategoryOf(f.extension))
        && (maxResults <= 0 ==> r.value.files == [])
        && (maxResults >= 1 ==> |r.value.files| == Min(maxResults, |all|))
        && (|all| < 2 * maxResults ==>
              r.value.files == Take(SortDesc(all, SizeKey), maxResults)
              && r.value.totalSizeGB * 1024.0 == SumMB(all))
        && CountCategory(r.value.files, Video) <= r.value.filesFound
        && CountOlderThan(r.value.files, 365.0) <= r.value.filesFound
  {
    if !(isWindows && IsRestricted(directory)) {
      var c := ConfigOf(minSizeMB, maxResults, now, isWindows);
      var es := Pending(c.sep, Start(fs, directory, c.sep), NoPrune);
      CollectedFacts(c, es);
      ReportFacts(c, directory, minSizeMB, maxResults, ScanEntries(c, es, Scan([], 0)), AllLarge(c, es));
    }
  }

  /** With a positive cap, what the walk collects is exactly the first `cap` large files
      it reaches, or all of them when there are fewer. */
  lemma CollectedExactly(c: Config, es: seq<Entry>)
    requires c.cap > 0
    ensures var all := AllLarge(c, es);
      ScanEntries(c, es, Scan([], 0)).files == all[..Min(c.cap, |all|)]
  {
    var all := AllLarge(c, es);
    var got := ScanEntries(c, es, Scan([], 0)).files;
    CollectedFacts(c, es);
    assert got == all[..|got|];
  }

  /** What the walk collects is counted in full in its byte total. */
  lemma CollectedTotal(c: Config, es: seq<Entry>)
    ensures var s := ScanEntries(c, es, Scan([], 0));
      s.totalBytes as real == SumMB(s.files) * (MiB as real)
  {
    CollectedFacts(c, es);
  }

  /** A result that is not an error is the report on what the walk collected. */
  lemma ResultReports(fs: Node, directory: string, minSizeMB: int, maxResults: int, now: real, isWindows: bool)
    ensures var r := LargeFilesResult(fs, directory, minSizeMB, maxResults, now, isWindows);
      var c := ConfigOf(minSizeMB, maxResults, now, isWindows);
      r.Ok? ==> r.value == ReportOf(directory, minSizeMB, maxResults,
                                    ScanEntries(c, Pending(c.sep, Start(fs, directory, c.sep), NoPrune), Scan([], 0)))
  {
  }

  /** The report's list is the cut of the sorted collected records, and its total their
      summed size. */
  lemma ReportOfCollected(directory: string, minSizeMB: int, maxResults: int, s: Scan)
    requires s.totalBytes as real == SumMB(s.files) * (MiB as real)
    ensures var rep := ReportOf(directory, minSizeMB, maxResults, s);
      && rep.files == Take(SortDesc(s.files, SizeKey), maxResults)
      && rep.totalSizeGB * 1024.0 == SumMB(s.files)
  {
    TotalInGiB(s.totalBytes, SumMB(s.files));
  }

  /** With `maxResults` at least one, the early stop decides the answer: the files are the
      `maxResults` largest among the first `2 * maxResults` large files in walk order, and
      the total is the sum over those first ones, whatever comes later in the walk. */
  lemma EarlyStopDecides(fs: Node, directory: string, minSizeMB: int, maxResults: int, now: real,
                         isWindows: bool)
    requires maxResults >= 1
    ensures var r := LargeFilesResult(fs, directory, minSizeMB, maxResults, now, isWindows);
      var all := LargeUnder(fs, directory, ConfigOf(minSizeMB, maxResults, now, isWindows));
      var first := all[..Min(2 * maxResults, |all|)];
      r.Ok? ==>
        && r.value.files == Take(SortDesc(first, SizeKey), maxResults)
        && r.value.totalSizeGB * 1024.0 == SumMB(first)
  {
    var c := ConfigOf(minSizeMB, maxResults, now, isWindows);
    var es := Pending(c.sep, Start(fs, directory, c.sep), NoPrune);
    var s := ScanEntries(c, es, Scan([], 0));
    var all := AllLarge(c, es);
    assert LargeUnder(fs, directory, c) == all;
    assert c.cap == 2 * maxResults;
    ResultReports(fs, directory, minSizeMB, maxResults, now, isWindows);
    CollectedExactly(c, es);
    CollectedTotal(c, es);
    ReportOfCollected(directory, minSizeMB, maxResults, s);
  }

  /** The Windows guard: the lower-cased directory string is tested against each
      restricted name in turn. */
  method CheckRestricted(directory: string) returns (restricted: bool)
    ensures restricted == IsRestricted(directory)
  {
    var dirLower := Lower(directory);
    var k := 0;
    while k < |RestrictedDirs|
      invariant 0 <= k <= |RestrictedDirs|
      invariant forall j :: 0 <= j < k ==> !Contains(dirLower, RestrictedDirs[j])
    {
      if Contains(dirLower, RestrictedDirs[k]) {
        return true;
      }
      k := k + 1;
    }
    return false;
  }

  /** One step of the inner loop. */
  lemma ScanFilesStep(c: Config, root: string, files: seq<Node>, acc: Scan)
    requires files != []
    ensures ScanFiles(c, root, files, acc) ==
      if IsLarge(c, files[0]) then
        var next := Scan(acc.files + [RecordOf(c, root, files[0])], acc.totalBytes + files[0].info.value.size);
        if |next.files| >= c.cap then next else ScanFiles(c, root, files[1..], next)
      else ScanFiles(c, root, files[1..], acc)
  {
  }

  /** The inner loop over the files of one directory, from the records collected so far. */
  method ScanDirectory(c: Config, root: string, files: seq<Node>, largeFiles: seq<FileRecord>, total: nat)
    returns (largeFiles': seq<FileRecord>, total': nat)
    requires forall f :: f in files ==> f.File?
    ensures Scan(largeFiles', total') == ScanFiles(c, root, files, Scan(largeFiles, total))
  {
    largeFiles', total' := largeFiles, total;
    var i := 0;
    var full := false;
    while i < |files| && !full
      invariant 0 <= i <= |files|
      invariant full ==> Scan(largeFiles', total') == ScanFiles(c, root, files, Scan(largeFiles, total))
      invariant !full ==>
        ScanFiles(c, root, files[i..], Scan(largeFiles', total')) == ScanFiles(c, root, files, Scan(largeFiles, total))
    {
      var f := files[i];
      assert f in files;
      ghost var acc := Scan(largeFiles', total');
      ScanFilesStep(c, root, files[i..], acc);
      assert files[i..][1..] == files[i + 1..];
      if f.info.Some? {
        var size := f.info.value.size;
        if size > c.minBytes {
          largeFiles' := largeFiles' + [RecordOf(c, root, f)];
          total' := total' + size;
          if |largeFiles'| >= c.cap {
            full := true;
          }
        }
      }
      i := i + 1;
    }
  }

  /** The walk, driven by a work list whose first item is listed next; it stops after the
      directory in which the cap is reached. */
  method Collect(c: Config, start: seq<Item>) returns (largeFiles: seq<FileRecord>, total: nat)
    ensures Scan(largeFiles, total) == ScanEntries(c, Pending(c.sep, start, NoPrune), Scan([], 0))
  {
    largeFiles, total := [], 0;
    var stack := start;
    var stopped := false;
    while stack != [] && !stopped
      invariant stopped ==> Scan(largeFiles, total) == ScanEntries(c, Pending(c.sep, start, NoPrune), Scan([], 0))
      invariant !stopped ==>
        ScanEntries(c, Pending(c.sep, stack, NoPrune), Scan(largeFiles, total))
          == ScanEntries(c, Pending(c.sep, start, NoPrune), Scan([], 0))
      decreases |Pending(c.sep, stack, NoPrune)|, |stack|
    {
      var item := stack[0];
      PendingPop(c.sep, stack, NoPrune);
      stack := stack[1..];
      if item.node.Dir? {
        var dirs := Subdirs(item.node.children);
        largeFiles, total := ScanDirectory(c, item.path, FilesOf(item.node.children), largeFiles, total);
        KeptAll(item.path, dirs);
        stack := Items(c.sep, item.path, dirs) + stack;
        if |largeFiles| >= c.cap {
          stopped := true;
        }
      }
    }
  }

  /** The scan as the tool runs it: the Windows guard, the collecting walk (which stops once
      twice `maxResults` files are collected), then the sort, the cut and the advice. */
  method FindLargeFiles(fs: Node, directory: string, minSizeMB: int, maxResults: int, now: real, isWindows: bool)
    returns (r: Result<LargeFileReport>)
    ensures r == LargeFilesResult(fs, directory, minSizeMB, maxResults, now, isWindows)
  {
    if isWindows {
      var restricted := CheckRestricted(directory);
      if restricted {
        return Err("Cannot scan system directory: " + directory);
      }
    }
    var c := Config(Sep(isWindows), minSizeMB * MiB, maxResults * 2, now);
    assert c == ConfigOf(minSizeMB, maxResults, now, isWindows);
    var largeFiles, total := Collect(c, Start(fs, directory, c.sep));
    r := Ok(ReportOf(directory, minSizeMB, maxResults, Scan(largeFiles, total)));
  }
}
