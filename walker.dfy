/** The top-down directory walk (`os.walk`): which roots are visited, in which order, with
    which listings, when the consumer may take directories out of `dirs` before descent. */
module Walker {
  import opened Wrappers
  import opened Strings
  import opened Paths
  import opened FileTree

  /** One `(root, dirs, files)` triple as the walk yields it: the listing is the one seen
      BEFORE the consumer prunes `dirs`. */
  datatype Entry = Entry(root: string, dirs: seq<Node>, files: seq<Node>)

  /** A directory waiting to be listed, with the path the walk will report for it. */
  datatype Item = Item(path: string, node: Node)

  /** The entries of a walk from `n` reported under path `p`. `prune(root, name)` says
      whether the consumer removes subdirectory `name` from the `dirs` of `root`. A file or
      an unreadable directory yields nothing. */
  function Walk(sep: char, p: string, n: Node, prune: (string, string) -> bool): seq<Entry>
    decreases n
  {
    match n
    case Dir(_, cs) => [Entry(p, Subdirs(cs), FilesOf(cs))] + WalkAll(sep, p, cs, prune)
    case _ => []
  }

  /** The walks of the subdirectories of `p` (listed in `cs`) that survive pruning, in listing order. */
  function WalkAll(sep: char, p: string, cs: seq<Node>, prune: (string, string) -> bool): seq<Entry>
    decreases cs
  {
    if cs == [] then []
    else
      (if IsDir(cs[0]) && !prune(p, cs[0].name) then Walk(sep, Join(sep, p, cs[0].name), cs[0], prune) else [])
        + WalkAll(sep, p, cs[1..], prune)
  }

  /** The directories of `ds` the consumer leaves in `dirs`. */
  function Kept(p: string, ds: seq<Node>, prune: (string, string) -> bool): (r: seq<Node>)
    ensures |r| <= |ds|
    ensures forall d :: d in r <==> d in ds && !prune(p, d.name)
  {
    if ds == [] then [] else (if prune(p, ds[0].name) then [] else [ds[0]]) + Kept(p, ds[1..], prune)
  }

  /** The work items `os.walk` schedules for the directories left in `dirs`. */
  function Items(sep: char, p: string, ds: seq<Node>): (r: seq<Item>)
    ensures |r| == |ds|
    ensures forall k :: 0 <= k < |ds| ==> r[k] == Item(Join(sep, p, ds[k].name), ds[k])
  {
    if ds == [] then [] else [Item(Join(sep, p, ds[0].name), ds[0])] + Items(sep, p, ds[1..])
  }

  /** The entries still to come from a work list whose first item is listed next. */
  function Pending(sep: char, items: seq<Item>, prune: (string, string) -> bool): seq<Entry>
  {
    if items == [] then [] else Walk(sep, items[0].path, items[0].node, prune) + Pending(sep, items[1..], prune)
  }

  /** The work list a walk of `path` starts from: the directory it names, if any. */
  function Start(fs: Node, path: string, sep: char): seq<Item>
  {
    match Resolve(fs, path, sep)
    case Some(n) => [Item(path, n)]
    case None => []
  }

  lemma {:induction false} PendingAppend(sep: char, a: seq<Item>, b: seq<Item>, prune: (string, string) -> bool)
    ensures Pending(sep, a + b, prune) == Pending(sep, a, prune) + Pending(sep, b, prune)
  {
    if a == [] {
      assert a + b == b;
    } else {
      assert (a + b)[1..] == a[1..] + b;
      PendingAppend(sep, a[1..], b, prune);
    }
  }

  /** Descending into the listed subdirectories one after the other is the same as
      scheduling the ones left in `dirs` as work items. */
  lemma {:induction false} WalkAllItems(sep: char, p: string, cs: seq<Node>, prune: (string, string) -> bool)
    ensures WalkAll(sep, p, cs, prune) == Pending(sep, Items(sep, p, Kept(p, Subdirs(cs), prune)), prune)
  {
    if cs != [] {
      WalkAllItems(sep, p, cs[1..], prune);
      var rest := Items(sep, p, Kept(p, Subdirs(cs[1..]), prune));
      if IsDir(cs[0]) && !prune(p, cs[0].name) {
        assert Subdirs(cs) == [cs[0]] + Subdirs(cs[1..]);
        assert Kept(p, Subdirs(cs), prune) == [cs[0]] + Kept(p, Subdirs(cs[1..]), prune);
        assert Items(sep, p, Kept(p, Subdirs(cs), prune)) == [Item(Join(sep, p, cs[0].name), cs[0])] + rest;
      } else if IsDir(cs[0]) {
        assert Subdirs(cs) == [cs[0]] + Subdirs(cs[1..]);
        assert Kept(p, Subdirs(cs), prune) == Kept(p, Subdirs(cs[1..]), prune);
      } else {
        assert Subdirs(cs) == Subdirs(cs[1..]);
      }
    }
  }

  /** Taking the first item off the work list: a listable directory yields its own entry and
      puts its kept subdirectories in front of the rest; anything else yields nothing. */
  lemma PendingPop(sep: char, items: seq<Item>, prune: (string, string) -> bool)
    requires items != []
    ensures var it := items[0];
      Pending(sep, items, prune) ==
        if it.node.Dir? then
          [Entry(it.path, Subdirs(it.node.children), FilesOf(it.node.children))]
            + Pending(sep, Items(sep, it.path, Kept(it.path, Subdirs(it.node.children), prune)) + items[1..], prune)
        else Pending(sep, items[1..], prune)
  {
    var it := items[0];
    if it.node.Dir? {
      var next := Items(sep, it.path, Kept(it.path, Subdirs(it.node.children), prune));
      WalkAllItems(sep, it.path, it.node.children, prune);
      PendingAppend(sep, next, items[1..], prune);
    }
  }

  lemma StartsWithTrans(a: string, b: string, c: string)
    requires StartsWith(a, b) && StartsWith(b, c)
    ensures StartsWith(a, c)
  {
    assert a[..|c|] == a[..|b|][..|c|];
  }

  /** Every root a walk reports extends the path the walk started from. */
  lemma {:induction false} WalkRootsExtend(sep: char, p: string, n: Node, prune: (string, string) -> bool)
    ensures forall e :: e in Walk(sep, p, n, prune) ==> StartsWith(e.root, p)
    decreases n
  {
    if n.Dir? {
      WalkAllRootsExtend(sep, p, n.children, prune);
    }
  }

  lemma {:induction false} WalkAllRootsExtend(sep: char, p: string, cs: seq<Node>, prune: (string, string) -> bool)
    ensures forall e :: e in WalkAll(sep, p, cs, prune) ==> StartsWith(e.root, p)
    decreases cs
  {
    if cs != [] {
      WalkAllRootsExtend(sep, p, cs[1..], prune);
      if IsDir(cs[0]) && !prune(p, cs[0].name) {
        var q := Join(sep, p, cs[0].name);
        JoinExtends(sep, p, cs[0].name);
        WalkRootsExtend(sep, q, cs[0], prune);
        forall e | e in Walk(sep, q, cs[0], prune) ensures StartsWith(e.root, p) {
          StartsWithTrans(e.root, q, p);
        }
      }
    }
  }

  /** The consumer that never touches `dirs`. */
  function NoPrune(root: string, name: string): bool
  {
    false
  }

  lemma {:induction false} KeptAll(p: string, ds: seq<Node>)
    ensures Kept(p, ds, NoPrune) == ds
  {
    if ds != [] {
      KeptAll(p, ds[1..]);
    }
  }
}
