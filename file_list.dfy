/**
 * UrovrInstance::GetAllFilesInDirectory: the files of a directory (and, when
 * given and present, of an SD-card directory) kept by a name-prefix filter
 * and an extension filter, then bubble-sorted by base filename.
 *
 * The directory enumeration is a parameter: each directory is given as the
 * sequence of file paths its visitor's map yields, in iteration order. The
 * FPaths helpers and FString comparisons are written out on `string`, with
 * ASCII case folding.
 */
module FileList {
  import opened Wrappers
  import opened TextCase

  predicate IsSeparator(c: char)
  {
    c == '/' || c == '\\'
  }

  /** FPaths::GetCleanFilename: the part of a path after its last separator.
      A path ending in a separator gives the empty name; the directory
      visitor hands on file paths only, so that does not arise there. */
  function CleanFilename(path: string): (name: string)
    ensures |name| <= |path|
  {
    if path == [] then []
    else if IsSeparator(path[|path| - 1]) then []
    else CleanFilename(path[..|path| - 1]) + [path[|path| - 1]]
  }

  /** The clean filename is the path's last component: a suffix of the
      path, free of separators, preceded by a separator when shorter. */
  lemma {:induction false} CleanFilenameIsLastComponent(path: string)
    ensures var name := CleanFilename(path);
            |name| <= |path| && path[|path| - |name|..] == name &&
            (forall i :: 0 <= i < |name| ==> !IsSeparator(name[i])) &&
            (|name| < |path| ==> IsSeparator(path[|path| - |name| - 1]))
  {
    if path != [] && !IsSeparator(path[|path| - 1]) {
      var front, c := path[..|path| - 1], path[|path| - 1];
      CleanFilenameIsLastComponent(front);
      var name := CleanFilename(front);
      var k := |front| - |name|;
      assert path == front + [c];
      assert CleanFilename(path) == name + [c];
      assert path[k..] == front[k..] + [c];
      if k > 0 {
        assert path[k - 1] == front[k - 1];
      }
    }
  }

  /** A path without separators is its own clean filename. */
  lemma {:induction false} CleanFilenameOfName(name: string)
    requires forall i :: 0 <= i < |name| ==> !IsSeparator(name[i])
    ensures CleanFilename(name) == name
  {
    if name != [] {
      CleanFilenameOfName(name[..|name| - 1]);
      assert name[..|name| - 1] + [name[|name| - 1]] == name;
    }
  }

  /** The position of the last '.' of a name, if any. */
  function LastDot(s: string): (r: Option<nat>)
    ensures r.Some? ==> r.value < |s|
  {
    if s == [] then None
    else if s[|s| - 1] == '.' then Some(|s| - 1)
    else LastDot(s[..|s| - 1])
  }

  /** LastDot finds a dot, and no dot follows it; None means no dot. */
  lemma {:induction false} LastDotIsLast(s: string)
    ensures LastDot(s).Some? ==> s[LastDot(s).value] == '.' &&
                                 forall i :: LastDot(s).value < i < |s| ==> s[i] != '.'
    ensures LastDot(s).None? ==> '.' !in s
  {
    if s != [] && s[|s| - 1] != '.' {
      var front := s[..|s| - 1];
      LastDotIsLast(front);
      assert s == front + [s[|s| - 1]];
    }
  }

  /** FPaths::GetExtension(path, false): what follows the last dot of the
      clean filename, without the dot; empty when there is no dot. */
  function Extension(path: string): (ext: string)
    ensures |ext| <= |path|
  {
    var name := CleanFilename(path);
    match LastDot(name)
    case None => []
    case Some(i) => name[i + 1..]
  }

  /** FPaths::GetBaseFilename(path): the clean filename without its extension. */
  function BaseFilename(path: string): (base: string)
    ensures base <= CleanFilename(path)
  {
    var name := CleanFilename(path);
    match LastDot(name)
    case None => name
    case Some(i) => name[..i]
  }

  /** The clean filename splits into base filename and extension, joined by
      a dot exactly when the name has one, and the extension holds no dot. */
  lemma BaseAndExtension(path: string)
    ensures var name := CleanFilename(path);
            if '.' in name then name == BaseFilename(path) + "." + Extension(path)
            else name == BaseFilename(path) && Extension(path) == []
    ensures '.' !in Extension(path)
  {
    var name := CleanFilename(path);
    LastDotIsLast(name);
    match LastDot(name)
    case None =>
      assert BaseFilename(path) == name && Extension(path) == [];
    case Some(i) =>
      var ext := name[i + 1..];
      assert name[i] == '.' && BaseFilename(path) == name[..i] && Extension(path) == ext;
      assert name == name[..i] + "." + ext;
      assert forall k :: 0 <= k < |ext| ==> ext[k] == name[i + 1 + k];
  }

  /** Neither part of the clean filename holds a separator. */
  lemma BaseAndExtensionWithoutSeparator(path: string)
    ensures forall i :: 0 <= i < |BaseFilename(path)| ==> !IsSeparator(BaseFilename(path)[i])
    ensures forall i :: 0 <= i < |Extension(path)| ==> !IsSeparator(Extension(path)[i])
  {
    var name := CleanFilename(path);
    CleanFilenameIsLastComponent(path);
    match LastDot(name)
    case None =>
    case Some(d) =>
      var ext := name[d + 1..];
      forall i | 0 <= i < |ext|
        ensures !IsSeparator(ext[i])
      {
        assert ext[i] == name[d + 1 + i];
      }
  }

  /** FString::Left: the first n characters, or all of them. */
  function Left(s: string, n: nat): (l: string)
    ensures l <= s && |l| == if n <= |s| then n else |s|
  {
    if n <= |s| then s[..n] else s
  }

  /** The filter of GetAllFilesInDirectory for one clean filename: a file is
      kept when the prefix filter is empty or the name starts with it (case
      sensitively), and when the extension filter is empty or the extension
      matches it ignoring case. */
  function ShouldAddFile(fileName: string, onlyFilesStartingWith: string, onlyFilesWithExtension: string): (keep: bool)
    ensures keep <==>
      (onlyFilesStartingWith == [] || onlyFilesStartingWith <= fileName) &&
      (onlyFilesWithExtension == [] || EqualsIgnoreCase(Extension(fileName), onlyFilesWithExtension))
  {
    (onlyFilesStartingWith == [] || LeftEquals(fileName, onlyFilesStartingWith)) &&
    (onlyFilesWithExtension == [] || ExtensionEquals(fileName, onlyFilesWithExtension))
  }

  /** `fileName.Left(prefix.Len()).Equals(prefix)`: the name starts with
      the prefix, case sensitively. */
  predicate LeftEquals(fileName: string, prefix: string)
    ensures LeftEquals(fileName, prefix) <==> prefix <= fileName
  {
    Left(fileName, |prefix|) == prefix
  }

  /** `FPaths::GetExtension(fileName, false).Equals(ext, ESearchCase::IgnoreCase)`. */
  predicate ExtensionEquals(fileName: string, ext: string)
  {
    EqualsIgnoreCase(Extension(fileName), ext)
  }

  /** What is added for a kept file: its full path or its clean filename. */
  function Entry(filePath: string, fullPath: bool): string
  {
    if fullPath then filePath else CleanFilename(filePath)
  }

  /** The entries one directory contributes, in the visitor's order. */
  function Collected(paths: seq<string>, fullPath: bool, prefix: string, ext: string): seq<string>
  {
    if paths == [] then []
    else
      var last := paths[|paths| - 1];
      Collected(paths[..|paths| - 1], fullPath, prefix, ext) +
      (if ShouldAddFile(CleanFilename(last), prefix, ext) then [Entry(last, fullPath)] else [])
  }

  /** An entry is collected exactly when some path of the directory passes
      the filter and gives that entry. */
  lemma {:induction false} CollectedMembers(paths: seq<string>, fullPath: bool, prefix: string, ext: string, e: string)
    ensures e in Collected(paths, fullPath, prefix, ext) <==>
      exists p :: p in paths && ShouldAddFile(CleanFilename(p), prefix, ext) && Entry(p, fullPath) == e
  {
    if paths != [] {
      var front := paths[..|paths| - 1];
      var last := paths[|paths| - 1];
      CollectedMembers(front, fullPath, prefix, ext, e);
      assert paths == front + [last];
      if e in Collected(paths, fullPath, prefix, ext) && e !in Collected(front, fullPath, prefix, ext) {
        assert last in paths && ShouldAddFile(CleanFilename(last), prefix, ext) && Entry(last, fullPath) == e;
      }
      if exists p :: p in paths && ShouldAddFile(CleanFilename(p), prefix, ext) && Entry(p, fullPath) == e {
        var p :| p in paths && ShouldAddFile(CleanFilename(p), prefix, ext) && Entry(p, fullPath) == e;
        if p != last {
          assert p in front;
        }
      }
    }
  }

  /** Without filters and with full paths, every file of the directory is
      collected, in the visitor's order. */
  lemma {:induction false} CollectedWithoutFilters(paths: seq<string>)
    ensures Collected(paths, true, [], []) == paths
  {
    if paths != [] {
      CollectedWithoutFilters(paths[..|paths| - 1]);
    }
  }

  /** Collecting one more file of the directory. */
  lemma CollectedStep(paths: seq<string>, i: int, fullPath: bool, prefix: string, ext: string)
    requires 0 <= i < |paths|
    ensures Collected(paths[..i + 1], fullPath, prefix, ext) ==
            Collected(paths[..i], fullPath, prefix, ext) +
            (if ShouldAddFile(CleanFilename(paths[i]), prefix, ext) then [Entry(paths[i], fullPath)] else [])
  {
    assert paths[..i + 1][..i] == paths[..i];
  }

  /** The two nested filter checks of the loop body for one clean
      filename: the prefix check first, then the extension check. */
  method FilterFile(fileName: string, onlyFilesStartingWith: string, onlyFilesWithExtension: string)
    returns (shouldAddFile: bool)
    ensures shouldAddFile == ShouldAddFile(fileName, onlyFilesStartingWith, onlyFilesWithExtension)
  {
    shouldAddFile := true;
    if onlyFilesStartingWith != [] {
      if !LeftEquals(fileName, onlyFilesStartingWith) {
        shouldAddFile := false;
      }
    }
    if onlyFilesWithExtension != [] {
      if !ExtensionEquals(fileName, onlyFilesWithExtension) {
        shouldAddFile := false;
      }
    }
  }

  /** The loop over one directory's files: appends the entry of every file
      the filter keeps. */
  method AddMatchingFiles(files: seq<string>, paths: seq<string>, fullPath: bool,
                          onlyFilesStartingWith: string, onlyFilesWithExtension: string)
    returns (r: seq<string>)
    ensures r == files + Collected(paths, fullPath, onlyFilesStartingWith, onlyFilesWithExtension)
  {
    r := files;
    var i := 0;
    while i < |paths|
      invariant 0 <= i <= |paths|
      invariant r == files + Collected(paths[..i], fullPath, onlyFilesStartingWith, onlyFilesWithExtension)
    {
      var filePath := paths[i];
      var fileName := CleanFilename(filePath);
      var shouldAddFile := FilterFile(fileName, onlyFilesStartingWith, onlyFilesWithExtension);
      if shouldAddFile {
        r := r + [if fullPath then filePath else fileName];
      }
      CollectedStep(paths, i, fullPath, onlyFilesStartingWith, onlyFilesWithExtension);
      i := i + 1;
    }
    assert paths[..|paths|] == paths;
  }

  /** Lexicographic order on character codes, a proper prefix first: the
      order of FCString::Strcmp. */
  function LexLess(a: string, b: string): (r: bool)
    ensures r ==> a != b
  {
    if a == [] then b != []
    else if b == [] then false
    else if a[0] != b[0] then a[0] < b[0]
    else LexLess(a[1..], b[1..])
  }

  lemma {:induction false} LexLessIrreflexive(a: string)
    ensures !LexLess(a, a)
  {
    if a != [] {
      LexLessIrreflexive(a[1..]);
    }
  }

  lemma {:induction false} LexLessTransitive(a: string, b: string, c: string)
    requires LexLess(a, b) && LexLess(b, c)
    ensures LexLess(a, c)
  {
    if a != [] && b != [] && c != [] && a[0] == b[0] && b[0] == c[0] {
      LexLessTransitive(a[1..], b[1..], c[1..]);
    }
  }

  lemma {:induction false} LexLessTotal(a: string, b: string)
    requires a != b
    ensures LexLess(a, b) || LexLess(b, a)
  {
    if a != [] && b != [] && a[0] == b[0] {
      assert a == [a[0]] + a[1..] && b == [b[0]] + b[1..];
      LexLessTotal(a[1..], b[1..]);
    }
  }

  /** What the sort of GetAllFilesInDirectory compares: the base filename,
      folded, since FString's operator> ignores case. */
  function Key(file: string): string
  {
    Fold(BaseFilename(file))
  }

  /** `FPaths::GetBaseFilename(p) > FPaths::GetBaseFilename(q)`. */
  function Gt(p: string, q: string): (r: bool)
    ensures r ==> Key(p) != Key(q)
  {
    LexLess(Key(q), Key(p))
  }

  /** What the bubble sort needs of its comparison `gt`: it is asymmetric
      and "not greater" is transitive, so "not greater" is a total
      preorder. */
  ghost predicate IsStrictWeakOrder(gt: (string, string) -> bool)
  {
    (forall p, q :: gt(p, q) ==> !gt(q, p)) &&
    (forall p, q, r :: !gt(p, q) && !gt(q, r) ==> !gt(p, r))
  }

  /** The comparison of GetAllFilesInDirectory is one. */
  lemma GtIsStrictWeakOrder()
    ensures IsStrictWeakOrder(Gt)
  {
    forall p, q | Gt(p, q)
      ensures !Gt(q, p)
    {
      if Gt(q, p) {
        LexLessTransitive(Key(p), Key(q), Key(p));
        LexLessIrreflexive(Key(p));
      }
    }
    forall p, q, r | !Gt(p, q) && !Gt(q, r)
      ensures !Gt(p, r)
    {
      if Gt(p, r) {
        if Key(q) != Key(p) && Key(q) != Key(r) {
          LexLessTotal(Key(p), Key(q));
          LexLessTotal(Key(q), Key(r));
          LexLessTransitive(Key(r), Key(p), Key(q));
        }
      }
    }
  }

  /** Two files are equivalent for the sort exactly when their keys are
      equal. */
  lemma GtEquivalence(p: string, q: string)
    ensures !Gt(p, q) && !Gt(q, p) <==> Key(p) == Key(q)
  {
    if Key(p) == Key(q) {
      LexLessIrreflexive(Key(p));
    } else {
      LexLessTotal(Key(p), Key(q));
    }
  }

  /** Non-decreasing for `gt`. */
  ghost predicate SortedBy(gt: (string, string) -> bool, s: seq<string>)
  {
    forall i, j :: 0 <= i < j < |s| ==> !gt(s[i], s[j])
  }

  /** Non-decreasing by base filename, ignoring case. */
  ghost predicate SortedByBaseName(s: seq<string>)
  {
    SortedBy(Gt, s)
  }

  /** s[lo..] is sorted and nothing before lo comes after anything in it. */
  ghost predicate SortedTail(gt: (string, string) -> bool, s: seq<string>, lo: int)
  {
    (forall i, j :: 0 <= lo <= i < j < |s| ==> !gt(s[i], s[j])) &&
    (forall i, j :: 0 <= i < lo <= j < |s| ==> !gt(s[i], s[j]))
  }

  /** origin records, for each position, where its element stood in the
      input o: a bijection between positions. */
  ghost predicate Tracks(s: seq<string>, o: seq<string>, origin: seq<int>)
  {
    |origin| == |s| == |o| &&
    (forall k :: 0 <= k < |s| ==> 0 <= origin[k] < |o| && s[k] == o[origin[k]]) &&
    (forall i, j :: 0 <= i < j < |s| ==> origin[i] != origin[j])
  }

  /** Equivalent elements (neither greater than the other) keep their input
      order. */
  ghost predicate Stable(gt: (string, string) -> bool, s: seq<string>, origin: seq<int>)
    requires |origin| == |s|
  {
    forall i, j :: 0 <= i < j < |s| && !gt(s[i], s[j]) && !gt(s[j], s[i]) ==> origin[i] < origin[j]
  }

  /** The swap of the bubble sort. */
  method Swap(a: array<string>, y: int)
    requires 0 <= y < a.Length - 1
    modifies a
    ensures a[..] == old(a[..])[y := old(a[y + 1])][y + 1 := old(a[y])]
    ensures multiset(a[..]) == multiset(old(a[..]))
  {
    var temp := a[y];
    a[y] := a[y + 1];
    a[y + 1] := temp;
  }

  /** s[y] is not below anything before it. */
  ghost predicate MaxAt(gt: (string, string) -> bool, s: seq<string>, y: int)
    requires 0 <= y < |s|
  {
    forall k :: 0 <= k <= y ==> !gt(s[k], s[y])
  }

  /** Swapping an out-of-order neighbour pair keeps the record of origins
      and stability: the two swapped elements are not equivalent. */
  lemma SwapKeepsOrigins(gt: (string, string) -> bool, s: seq<string>, o: seq<string>, origin: seq<int>, y: int)
    requires 0 <= y < y + 1 < |s| && gt(s[y], s[y + 1])
    requires Tracks(s, o, origin) && Stable(gt, s, origin)
    ensures var t := s[y := s[y + 1]][y + 1 := s[y]];
            var origin' := origin[y := origin[y + 1]][y + 1 := origin[y]];
            Tracks(t, o, origin') && Stable(gt, t, origin')
  {
  }

  /** One step of the inner loop when s[y] > s[y + 1]: after the swap the
      larger element has moved up, and sortedness above lo, the record of
      origins and stability are kept. */
  lemma SwapStep(gt: (string, string) -> bool, s: seq<string>, o: seq<string>, origin: seq<int>, y: int, lo: int)
    requires IsStrictWeakOrder(gt)
    requires 0 <= y < y + 1 < lo <= |s| && gt(s[y], s[y + 1])
    requires SortedTail(gt, s, lo) && MaxAt(gt, s, y)
    requires Tracks(s, o, origin) && Stable(gt, s, origin)
    ensures var t := s[y := s[y + 1]][y + 1 := s[y]];
            var origin' := origin[y := origin[y + 1]][y + 1 := origin[y]];
            SortedTail(gt, t, lo) && MaxAt(gt, t, y + 1) &&
            Tracks(t, o, origin') && Stable(gt, t, origin')
  {
    SwapKeepsOrigins(gt, s, o, origin, y);
    var t := s[y := s[y + 1]][y + 1 := s[y]];
    forall i, j | 0 <= i < lo <= j < |t|
      ensures !gt(t[i], t[j])
    {
      if i == y {
        assert !gt(s[y + 1], s[j]);
      } else if i == y + 1 {
        assert !gt(s[y], s[j]);
      } else {
        assert !gt(s[i], s[j]);
      }
    }
    forall k | 0 <= k <= y + 1
      ensures !gt(t[k], t[y + 1])
    {
      if k < y {
        assert !gt(s[k], s[y]);
      }
    }
  }

  /** One step of the inner loop when s[y] is not greater than s[y + 1]. */
  lemma KeepStep(gt: (string, string) -> bool, s: seq<string>, y: int)
    requires IsStrictWeakOrder(gt)
    requires 0 <= y < |s| - 1 && !gt(s[y], s[y + 1]) && MaxAt(gt, s, y)
    ensures MaxAt(gt, s, y + 1)
  {
    forall k | 0 <= k <= y + 1
      ensures !gt(s[k], s[y + 1])
    {
      if k < y {
        assert !gt(s[k], s[y]);
      } else if k == y + 1 {
        assert !gt(s[k], s[k]);
      }
    }
  }

  /** At the end of a pass the largest element of s[..lo] stands at lo - 1. */
  lemma PassEnd(gt: (string, string) -> bool, s: seq<string>, lo: int)
    requires IsStrictWeakOrder(gt)
    requires 0 < lo <= |s| && SortedTail(gt, s, lo) && MaxAt(gt, s, lo - 1)
    ensures SortedTail(gt, s, lo - 1)
  {
    forall i, j | 0 <= i < lo - 1 <= j < |s|
      ensures !gt(s[i], s[j])
    {
      if j > lo - 1 {
        assert !gt(s[i], s[lo - 1]) && !gt(s[lo - 1], s[j]);
      }
    }
  }

  /** One iteration of the inner loop: swaps neighbours y and y + 1 when
      strictly out of order, so that position y + 1 holds a largest element
      of a[..y + 2]; the sorted tail, the record of origins and stability
      are kept. */
  method BubbleStep(a: array<string>, gt: (string, string) -> bool, lo: int, y: int,
                    ghost o: seq<string>, ghost origin: seq<int>)
    returns (ghost origin': seq<int>)
    requires IsStrictWeakOrder(gt)
    requires 0 <= y < lo - 1 && lo <= a.Length
    requires SortedTail(gt, a[..], lo) && MaxAt(gt, a[..], y)
    requires Tracks(a[..], o, origin) && Stable(gt, a[..], origin)
    modifies a
    ensures multiset(a[..]) == multiset(old(a[..]))
    ensures SortedTail(gt, a[..], lo) && MaxAt(gt, a[..], y + 1)
    ensures Tracks(a[..], o, origin') && Stable(gt, a[..], origin')
  {
    if gt(a[y], a[y + 1]) {
      ghost var s := a[..];
      SwapStep(gt, s, o, origin, y, lo);
      Swap(a, y);
      assert a[..] == s[y := s[y + 1]][y + 1 := s[y]];
      origin' := origin[y := origin[y + 1]][y + 1 := origin[y]];
    } else {
      KeepStep(gt, a[..], y);
      origin' := origin;
    }
  }

  /** One pass of the inner loop: moves a largest element of a[..n - x] to
      position n - x - 1, swapping neighbours only when strictly out of
      order. */
  method BubblePass(a: array<string>, gt: (string, string) -> bool, x: int, ghost o: seq<string>, ghost origin: seq<int>)
    returns (ghost origin': seq<int>)
    requires IsStrictWeakOrder(gt)
    requires 0 <= x < a.Length - 1
    requires SortedTail(gt, a[..], a.Length - x)
    requires Tracks(a[..], o, origin) && Stable(gt, a[..], origin)
    modifies a
    ensures multiset(a[..]) == multiset(old(a[..]))
    ensures SortedTail(gt, a[..], a.Length - x - 1)
    ensures Tracks(a[..], o, origin') && Stable(gt, a[..], origin')
  {
    var n := a.Length;
    ghost var a0 := a[..];
    origin' := origin;
    var y := 0;
    assert !gt(a[0], a[0]);
    while y < n - x - 1
      invariant 0 <= y <= n - x - 1
      invariant multiset(a[..]) == multiset(a0)
      invariant SortedTail(gt, a[..], n - x) && MaxAt(gt, a[..], y)
      invariant Tracks(a[..], o, origin') && Stable(gt, a[..], origin')
    {
      origin' := BubbleStep(a, gt, n - x, y, o, origin');
      y := y + 1;
    }
    PassEnd(gt, a[..], n - x);
  }

  /** Before sorting, every element stands where it started. */
  lemma IdentityTracks(gt: (string, string) -> bool, s: seq<string>, origin: seq<int>)
    requires |origin| == |s| && forall k :: 0 <= k < |s| ==> origin[k] == k
    ensures Tracks(s, s, origin) && Stable(gt, s, origin)
  {
  }

  /** With at most the first element left before the sorted tail, all is
      sorted. */
  lemma SortedTailAll(gt: (string, string) -> bool, s: seq<string>, lo: int)
    requires 0 <= lo <= 1 && SortedTail(gt, s, lo)
    ensures SortedBy(gt, s)
  {
  }

  /** The nested loops of GetAllFilesInDirectory: sorts the list in place
      for `gt`; equivalent elements keep their order, and a list of at most
      one element is left as it is. */
  method BubbleSort(a: array<string>, gt: (string, string) -> bool) returns (ghost origin: seq<int>)
    requires IsStrictWeakOrder(gt)
    modifies a
    ensures multiset(a[..]) == multiset(old(a[..]))
    ensures SortedBy(gt, a[..])
    ensures Tracks(a[..], old(a[..]), origin) && Stable(gt, a[..], origin)
    ensures a.Length <= 1 ==> a[..] == old(a[..])
  {
    ghost var o := a[..];
    origin := seq(a.Length, k => k);
    IdentityTracks(gt, o, origin);
    var x := 0;
    while x < a.Length - 1
      invariant 0 <= x <= if a.Length >= 1 then a.Length - 1 else 0
      invariant multiset(a[..]) == multiset(o)
      invariant SortedTail(gt, a[..], a.Length - x)
      invariant Tracks(a[..], o, origin) && Stable(gt, a[..], origin)
      invariant a.Length <= 1 ==> a[..] == o
    {
      ghost var before := a[..];
      origin := BubblePass(a, gt, x, o, origin);
      assert multiset(a[..]) == multiset(before) == multiset(o);
      x := x + 1;
    }
    SortedTailAll(gt, a[..], a.Length - x);
  }

  /** The sort at the end of GetAllFilesInDirectory, on a copy of the
      collected list. */
  method SortByBaseName(collected: seq<string>) returns (files: seq<string>, ghost origin: seq<int>)
    ensures multiset(files) == multiset(collected)
    ensures SortedByBaseName(files)
    ensures Tracks(files, collected, origin) && Stable(Gt, files, origin)
    ensures |collected| <= 1 ==> files == collected
  {
    var a := new string[|collected|](i requires 0 <= i < |collected| => collected[i]);
    assert a[..] == collected;
    GtIsStrictWeakOrder();
    origin := BubbleSort(a, Gt);
    files := a[..];
  }

  /** GetAllFilesInDirectory: the directory's kept entries, then those of
      the SD-card directory when it is named and exists, sorted by base
      filename; `origin` says where each result stood before sorting. */
  method GetAllFilesInDirectory(
    directoryFiles: seq<string>, fullPath: bool,
    onlyFilesStartingWith: string, onlyFilesWithExtension: string,
    sdCardDirectory: string, sdCardFiles: seq<string>, sdCardDirectoryExists: bool)
    returns (files: seq<string>, ghost origin: seq<int>)
    ensures var collected :=
              Collected(directoryFiles, fullPath, onlyFilesStartingWith, onlyFilesWithExtension) +
              (if sdCardDirectory != [] && sdCardDirectoryExists
               then Collected(sdCardFiles, fullPath, onlyFilesStartingWith, onlyFilesWithExtension)
               else []);
            multiset(files) == multiset(collected) &&
            SortedByBaseName(files) &&
            (|collected| <= 1 ==> files == collected)
    ensures var collected :=
              Collected(directoryFiles, fullPath, onlyFilesStartingWith, onlyFilesWithExtension) +
              (if sdCardDirectory != [] && sdCardDirectoryExists
               then Collected(sdCardFiles, fullPath, onlyFilesStartingWith, onlyFilesWithExtension)
               else []);
            Tracks(files, collected, origin) && Stable(Gt, files, origin)
  {
    ghost var fromDirectory := Collected(directoryFiles, fullPath, onlyFilesStartingWith, onlyFilesWithExtension);
    ghost var fromSdCard := Collected(sdCardFiles, fullPath, onlyFilesStartingWith, onlyFilesWithExtension);
    var collected := AddMatchingFiles([], directoryFiles, fullPath, onlyFilesStartingWith, onlyFilesWithExtension);
    assert collected == fromDirectory;
    if sdCardDirectory != [] && sdCardDirectoryExists {
      collected := AddMatchingFiles(collected, sdCardFiles, fullPath, onlyFilesStartingWith, onlyFilesWithExtension);
      assert collected == fromDirectory + fromSdCard;
    } else {
      assert collected == fromDirectory + [];
    }
    files, origin := SortByBaseName(collected);
  }
}
