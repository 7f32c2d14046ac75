/** Path strings: the separator, `os.path.join`, splitting into components, the two ways
    the tools cut a file name at its last dot, and the depth of a walk root. */
module Paths {
  import opened Strings

  /** `os.sep`. */
  function Sep(isWindows: bool): char
  {
    if isWindows then '\\' else '/'
  }

  /** `os.path.join(root, name)` for a `name` taken from a directory listing, which never
      holds the separator: the separator is added unless `root` is empty or already ends
      with one. */
  function Join(sep: char, root: string, name: string): string
  {
    if root == [] || root[|root| - 1] == sep then root + name else root + [sep] + name
  }

  /** The joined path extends `root` by `name`, with at most one separator between. */
  lemma JoinExtends(sep: char, root: string, name: string)
    ensures var r := Join(sep, root, name);
      && StartsWith(r, root)
      && EndsWith(r, name)
      && (r == root + name || r == root + [sep] + name)
  {
  }

  /** The non-empty pieces of `path` between separators, in order. */
  function Components(path: string, sep: char): seq<string>
    decreases |path|
  {
    if path == [] then []
    else
      var i := IndexOf(path, sep);
      (if i == 0 then [] else [path[..i]])
        + (if i < |path| then Components(path[i + 1..], sep) else [])
  }

  /** A dot with no dot after it is the last dot. */
  lemma LastDotAt(name: string, i: int)
    requires 0 <= i < |name| && name[i] == '.' && '.' !in name[i + 1..]
    ensures LastIndexOf(name, '.') == i
  {
    LastIndexOfLast(name, '.');
  }

  /** `Path(name).suffix`: from the last dot on, when that dot is neither the first nor the
      last character of the name; otherwise empty. */
  function Suffix(name: string): string
  {
    var i := LastIndexOf(name, '.');
    if 0 < i < |name| - 1 then name[i..] else ""
  }

  /** A non-empty suffix starts at a dot that is neither first nor last, holds no other
      dot, and ends the name. */
  lemma SuffixShape(name: string)
    ensures var r := Suffix(name);
      && (r != [] ==> 2 <= |r| < |name| && r[0] == '.' && EndsWith(name, r) && '.' !in r[1..])
      && (forall i :: 0 < i < |name| - 1 && name[i] == '.' && '.' !in name[i + 1..] ==> r == name[i..])
  {
    LastIndexOfLast(name, '.');
    var r := Suffix(name);
    forall i | 0 < i < |name| - 1 && name[i] == '.' && '.' !in name[i + 1..] ensures r == name[i..] {
      LastDotAt(name, i);
    }
    if r != [] {
      var i := LastIndexOf(name, '.');
      forall j | 1 <= j < |r| ensures r[j] != '.' {
        assert r[j] == name[i + j];
      }
    }
  }

  /** The suffix of the lower-cased name is the lower-cased suffix. */
  lemma SuffixLower(name: string)
    ensures Suffix(Lower(name)) == Lower(Suffix(name))
  {
    LastDotLower(name);
    var i := LastIndexOf(name, '.');
    if 0 < i < |name| - 1 {
      LowerSlice(name, i, |name|);
      assert name[i..] == name[i..|name|];
      assert Lower(name)[i..] == Lower(name)[i..|name|];
    }
  }

  /** `s` holds a character other than a dot. */
  predicate HasNonDot(s: string)
  {
    exists i :: 0 <= i < |s| && s[i] != '.'
  }

  /** `os.path.splitext(name)[0]` for a name without separators: the name up to its last
      dot, unless everything before that dot is dots (leading dots do not start an
      extension), in which case the whole name. */
  function SplitExtRoot(name: string): string
  {
    var dot := LastIndexOf(name, '.');
    if dot >= 0 && HasNonDot(name[..dot]) then name[..dot] else name
  }

  /** The root is the whole name, or the name cut at its last dot with something other
      than dots before it. */
  lemma SplitExtRootShape(name: string)
    ensures var r := SplitExtRoot(name);
      && StartsWith(name, r)
      && (r != name ==> name[|r|] == '.' && '.' !in name[|r| + 1..] && HasNonDot(r))
      && (forall i :: 0 <= i < |name| && name[i] == '.' && '.' !in name[i + 1..] && HasNonDot(name[..i])
            ==> r == name[..i])
  {
    LastIndexOfLast(name, '.');
    var r := SplitExtRoot(name);
    forall i | 0 <= i < |name| && name[i] == '.' && '.' !in name[i + 1..] && HasNonDot(name[..i])
      ensures r == name[..i]
    {
      LastDotAt(name, i);
    }
    if r != name {
      var dot := LastIndexOf(name, '.');
      var tail := name[dot + 1..];
      forall j | 0 <= j < |tail| ensures tail[j] != '.' {
        assert tail[j] == name[dot + 1 + j];
      }
    }
  }

  /** Worked cases: a video's suffix keeps its case, and a report's root drops ".txt". */
  lemma ExtensionExamples()
    ensures Suffix("movie.MP4") == ".MP4"
    ensures SplitExtRoot("report.txt") == "report"
  {
    LastDotAt("movie.MP4", 5);
    LastDotAt("report.txt", 6);
    assert "report.txt"[..6] == "report";
    assert "report"[0] != '.';
  }

  /** `root[len(top):].count(os.sep)`: the separators in `root` after its first `|top|`
      characters (Python's slice is empty when `root` is shorter). */
  function Depth(sep: char, top: string, root: string): nat
  {
    CountChar(root[if |top| <= |root| then |top| else |root|..], sep)
  }

  /** Extending a root never lowers its depth below the one it extends. */
  lemma DepthExtends(sep: char, top: string, root: string, longer: string)
    requires StartsWith(longer, root)
    ensures Depth(sep, top, longer) >= Depth(sep, top, root)
  {
    if |top| <= |root| {
      assert longer[|top|..] == root[|top|..] + longer[|root|..];
      CountCharAppend(root[|top|..], longer[|root|..], sep);
    }
  }
}
