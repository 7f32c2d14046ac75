/** The filesystem the tools inspect, as a value: a tree of named entries. A file carries
    the result of its `stat` (size and modification time), or None when the call fails; a
    directory whose listing cannot be read is `Unlistable`. */
module FileTree {
  import opened Wrappers
  import opened Strings
  import opened Paths

  const MiB: nat := 1048576
  const GiB: nat := 1073741824

  /** A byte count in MiB. */
  function InMiB(bytes: nat): real
  {
    bytes as real / MiB as real
  }

  /** The age of a modification time, in days. */
  function AgeInDays(now: real, mtime: real): real
  {
    (now - mtime) / 86400.0
  }

  datatype FileInfo = FileInfo(size: nat, mtime: real)

  datatype Node =
    | File(name: string, info: Option<FileInfo>)
    | Dir(name: string, children: seq<Node>)
    | Unlistable(name: string)

  /** What `os.walk` files under `dirs` (everything else goes to `files`). */
  predicate IsDir(n: Node)
  {
    n.Dir? || n.Unlistable?
  }

  /** The `dirs` of a listing, in listing order. */
  function Subdirs(cs: seq<Node>): (r: seq<Node>)
    ensures |r| <= |cs|
    ensures forall n :: n in r <==> n in cs && IsDir(n)
  {
    if cs == [] then []
    else (if IsDir(cs[0]) then [cs[0]] else []) + Subdirs(cs[1..])
  }

  /** The `files` of a listing, in listing order. */
  function FilesOf(cs: seq<Node>): (r: seq<Node>)
    ensures |r| <= |cs|
    ensures forall n :: n in r <==> n in cs && n.File?
  {
    if cs == [] then []
    else (if cs[0].File? then [cs[0]] else []) + FilesOf(cs[1..])
  }

  function Names(ns: seq<Node>): (r: seq<string>)
    ensures |r| == |ns| && forall k :: 0 <= k < |ns| ==> r[k] == ns[k].name
  {
    if ns == [] then [] else [ns[0].name] + Names(ns[1..])
  }

  /** The first entry of a listing with the given name. */
  function Child(cs: seq<Node>, name: string): (r: Option<Node>)
    ensures r.Some? ==> r.value in cs && r.value.name == name
    ensures r.None? ==> forall c :: c in cs ==> c.name != name
  {
    if cs == [] then None
    else if cs[0].name == name then Some(cs[0])
    else Child(cs[1..], name)
  }

  /** The entry reached from `n` by following the names in `comps`. */
  function Lookup(n: Node, comps: seq<string>): Option<Node>
    decreases comps
  {
    if comps == [] then Some(n)
    else if !n.Dir? then None
    else match Child(n.children, comps[0])
      case None => None
      case Some(c) => Lookup(c, comps[1..])
  }

  /** The entry a path string names, with the tree standing for the namespace paths are
      resolved in; the empty path names nothing. */
  function Resolve(fs: Node, path: string, sep: char): Option<Node>
  {
    if path == [] then None else Lookup(fs, Components(path, sep))
  }

  /** The bytes of every file at or below `n` whose size can be read. */
  function Bytes(n: Node): nat
    decreases n
  {
    match n
    case File(_, info) => if info.Some? then info.value.size else 0
    case Dir(_, cs) => ForestBytes(cs)
    case Unlistable(_) => 0
  }

  function ForestBytes(ns: seq<Node>): nat
    decreases ns
  {
    if ns == [] then 0 else Bytes(ns[0]) + ForestBytes(ns[1..])
  }

  /** How many files at or below `n` have a readable size. */
  function FileCount(n: Node): nat
    decreases n
  {
    match n
    case File(_, info) => if info.Some? then 1 else 0
    case Dir(_, cs) => ForestFileCount(cs)
    case Unlistable(_) => 0
  }

  function ForestFileCount(ns: seq<Node>): nat
    decreases ns
  {
    if ns == [] then 0 else FileCount(ns[0]) + ForestFileCount(ns[1..])
  }

  /** How many entries a tree holds, itself included. */
  function Size(n: Node): nat
    decreases n
  {
    match n
    case Dir(_, cs) => 1 + ForestSize(cs)
    case _ => 1
  }

  function ForestSize(ns: seq<Node>): nat
    decreases ns
  {
    if ns == [] then 0 else Size(ns[0]) + ForestSize(ns[1..])
  }

  lemma {:induction false} ForestAppend(a: seq<Node>, b: seq<Node>)
    ensures ForestBytes(a + b) == ForestBytes(a) + ForestBytes(b)
    ensures ForestFileCount(a + b) == ForestFileCount(a) + ForestFileCount(b)
    ensures ForestSize(a + b) == ForestSize(a) + ForestSize(b)
  {
    if a == [] {
      assert a + b == b;
    } else {
      assert (a + b)[1..] == a[1..] + b;
      ForestAppend(a[1..], b);
    }
  }

  /** A listing's totals are those of its files plus those of its directories. */
  lemma {:induction false} ForestSplit(cs: seq<Node>)
    ensures ForestBytes(cs) == ForestBytes(FilesOf(cs)) + ForestBytes(Subdirs(cs))
    ensures ForestFileCount(cs) == ForestFileCount(FilesOf(cs)) + ForestFileCount(Subdirs(cs))
  {
    if cs != [] {
      ForestSplit(cs[1..]);
      var f := if cs[0].File? then [cs[0]] else [];
      var d := if IsDir(cs[0]) then [cs[0]] else [];
      ForestAppend(f, FilesOf(cs[1..]));
      ForestAppend(d, Subdirs(cs[1..]));
      assert ForestBytes([cs[0]]) == Bytes(cs[0]);
      assert ForestFileCount([cs[0]]) == FileCount(cs[0]);
    }
  }
}
