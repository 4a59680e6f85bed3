/**
 * The colour codes and the location tags of tmcf/logging.py. A fatal message
 * is preceded by a tag naming where it comes from: `[namespace:folders/name:line] `
 * for a function template (`function_ref`) and `[namespace:folders/name] ` for
 * a JSON file (`generic_ref`). Both split the path on backslashes and walk its
 * sections from the file upwards until the `function` (or `data`/`assets`)
 * directory; the folders met on the way are appended in that walking order.
 * The path is taken as already normalised (`os.path.normpath` is not part of
 * this model). `None` stands for the exception the program raises instead of
 * producing a tag.
 */
module Logging {
  import opened Wrappers
  import opened Text

  const RESET := "\U{1b}[0m"
  const BOLD := "\U{1b}[1m"
  const RED := "\U{1b}[31m"

  /** `Logging.format(s, *codes)`: the codes, the text, then the reset code. */
  function Format(s: string, codes: seq<string>): string {
    Concat(codes) + s + RESET
  }

  /** Formatted text can be taken apart again: the codes come first, the
      reset code last, and the text sits between them unchanged. */
  lemma FormatParts(s: string, codes: seq<string>)
    ensures var r := Format(s, codes);
            && |r| == |Concat(codes)| + |s| + |RESET|
            && r[..|Concat(codes)|] == Concat(codes)
            && r[|Concat(codes)|..|Concat(codes)| + |s|] == s
            && r[|r| - |RESET|..] == RESET
  {
  }

  /** `f"{x}"` for a value that may be `None`. */
  function Show(x: Option<string>): string {
    match x
    case None => "None"
    case Some(s) => s
  }

  /** The folders `s` met walking upwards: last section first, each followed by `/`. */
  function Trail(s: seq<string>): string {
    if s == [] then "" else Trail(s[1..]) + s[0] + "/"
  }

  /** The folders in path order, each followed by `/`. */
  function Folders(s: seq<string>): string {
    if s == [] then "" else s[0] + "/" + Folders(s[1..])
  }

  /** The walk lists the folders in reverse: `Trail` is `Folders` of the
      reversed sections. */
  lemma {:induction false} TrailReversed(s: seq<string>)
    ensures Trail(s) == Folders(Reverse(s))
  {
    if s != [] {
      TrailReversed(s[1..]);
      FoldersAppend(Reverse(s[1..]), [s[0]]);
      assert Reverse(s) == Reverse(s[1..]) + [s[0]];
      assert Folders([s[0]]) == s[0] + "/" + "";
    }
  }

  function Reverse<T>(s: seq<T>): (r: seq<T>)
    ensures |r| == |s| && forall i :: 0 <= i < |s| ==> r[i] == s[|s| - 1 - i]
  {
    if s == [] then [] else Reverse(s[1..]) + [s[0]]
  }

  lemma {:induction false} FoldersAppend(a: seq<string>, b: seq<string>)
    ensures Folders(a + b) == Folders(a) + Folders(b)
  {
    if a != [] {
      assert (a + b)[1..] == a[1..] + b;
      FoldersAppend(a[1..], b);
    } else {
      assert a + b == b;
    }
  }

  /** Walking up two folders lists them in the opposite order to the path. */
  lemma TrailOfTwo(a: string, b: string)
    ensures Trail([a, b]) == b + "/" + a + "/"
  {
    assert [a, b][1..] == [b];
    assert [b][1..] == [];
    assert Trail([b]) == b + "/";
  }

  /** `"".join(file.split(".")[:-1])`: the file name without its last
      extension, and without the dots before it. */
  function Stem(file: string): string {
    var parts := Split(file, '.');
    Concat(parts[..|parts| - 1])
  }

  /** A file name without a dot has an empty stem. */
  lemma StemWithoutDot(file: string)
    requires '.' !in file
    ensures Stem(file) == ""
  {
    SplitWithout(file, '.');
  }

  /** The dots before the last extension are dropped: `a.b.mcfunction` has the stem `ab`. */
  lemma StemOfTwoDots(a: string, b: string, ext: string)
    requires '.' !in a && '.' !in b && '.' !in ext
    ensures Stem(a + "." + b + "." + ext) == a + b
  {
    SplitWithout(ext, '.');
    SplitPiece(b, '.', ext);
    assert a + "." + b + "." + ext == a + ['.'] + (b + ['.'] + ext);
    SplitPiece(a, '.', b + ['.'] + ext);
    var parts := Split(a + "." + b + "." + ext, '.');
    assert parts == [a, b, ext];
    assert parts[..2] == [a, b];
    assert Concat([b]) == b;
  }

  /** The largest index below `hi` whose section is `x`: the first one met
      walking upwards from `hi`. */
  function LastIndexOf(s: seq<string>, x: string, hi: nat): (r: Option<nat>)
    requires hi <= |s|
    ensures r.Some? ==> r.value < hi && s[r.value] == x && forall m :: r.value < m < hi ==> s[m] != x
    ensures r.None? ==> forall m :: 0 <= m < hi ==> s[m] != x
  {
    if hi == 0 then None
    else if s[hi - 1] == x then Some(hi - 1)
    else LastIndexOf(s, x, hi - 1)
  }

  predicate IsRoot(section: string) {
    section == "data" || section == "assets"
  }

  /** The largest index below `hi` whose section is `data` or `assets`. */
  function LastRoot(s: seq<string>, hi: nat): (r: Option<nat>)
    requires hi <= |s|
    ensures r.Some? ==> r.value < hi && IsRoot(s[r.value]) && forall m :: r.value < m < hi ==> !IsRoot(s[m])
    ensures r.None? ==> forall m :: 0 <= m < hi ==> !IsRoot(s[m])
  {
    if hi == 0 then None
    else if IsRoot(s[hi - 1]) then Some(hi - 1)
    else LastRoot(s, hi - 1)
  }

  function FunctionTag(namespace: string, folders: string, name: string, line: int): string {
    Format("[" + namespace + ":" + folders + name + ":" + IntToString(line) + "] ", [BOLD, RED])
  }

  function GenericTag(namespace: string, folders: string, name: string): string {
    Format("[" + namespace + ":" + folders + name + "] ", [BOLD, RED])
  }

  /** The tag `function_ref(path, line)` makes: the namespace is the section
      before the nearest `function` directory above the file (`None` when
      there is none), the folders are those between them as walked, and the
      name is the file's stem. A `function` directory that is the first
      section has no namespace before it, and the lookup raises. */
  function FunctionRefText(path: string, line: int): Option<string> {
    FunctionRefOf(Split(path, '\\'), line)
  }

  function FunctionRefOf(sections: seq<string>, line: int): Option<string>
    requires |sections| >= 1
  {
    var n := |sections|;
    var name := Stem(sections[n - 1]);
    match LastIndexOf(sections, "function", n - 1)
    case None => Some(FunctionTag("None", Trail(sections[..n - 1]), name, line))
    case Some(k) =>
      if k == 0 then None
      else Some(FunctionTag(sections[k - 1], Trail(sections[k + 1..n - 1]), name, line))
  }

  /** `function_ref(path, line_no)` */
  method FunctionRef(path: string, line: int) returns (r: Option<string>)
    ensures r == FunctionRefText(path, line)
  {
    var sections := Split(path, '\\');
    var n := |sections|;
    var name := "";
    var namespace: Option<string> := None;
    var folders := "";
    var i := 0;
    while i < n
      invariant 0 <= i <= n && namespace.None?
      invariant i >= 1 ==> && name == Stem(sections[n - 1])
                           && folders == Trail(sections[n - i..n - 1])
                           && LastIndexOf(sections, "function", n - 1) == LastIndexOf(sections, "function", n - i)
      invariant i == 0 ==> folders == ""
    {
      var section := sections[n - 1 - i];
      if i == 0 {
        name := Stem(section);
      } else if section == "function" {
        assert LastIndexOf(sections, "function", n - i) == Some(n - 1 - i);
        if i + 2 > n {
          FunctionRefAtTop(sections, line);
          return None;
        }
        namespace := Some(sections[n - (i + 2)]);
        break;
      } else {
        TrailStep(sections, n - i, n - 1);
        folders := folders + section + "/";
      }
      i := i + 1;
    }
    var ns := Show(namespace);
    if namespace.None? {
      assert sections[n - i..n - 1] == sections[..n - 1];
      FunctionRefFound(sections, None, ns, folders, name, line);
    } else {
      FunctionRefFound(sections, Some(n - 1 - i), ns, folders, name, line);
    }
    return Some(FunctionTag(ns, folders, name, line));
  }

  /** `FunctionRefAt` and `FunctionRefNone` in the terms the walk has
      computed: `k` is where it met the `function` section, if anywhere. */
  lemma FunctionRefFound(sections: seq<string>, k: Option<nat>, ns: string, folders: string, name: string, line: int)
    requires |sections| >= 1 && LastIndexOf(sections, "function", |sections| - 1) == k
    requires k.None? ==> ns == "None" && folders == Trail(sections[..|sections| - 1])
    requires k.Some? ==> && 0 < k.value < |sections| - 1 && ns == sections[k.value - 1]
                         && folders == Trail(sections[k.value + 1..|sections| - 1])
    requires name == Stem(sections[|sections| - 1])
    ensures FunctionRefOf(sections, line) == Some(FunctionTag(ns, folders, name, line))
  {
    if k.None? {
      FunctionRefNone(sections, line);
    } else {
      FunctionRefAt(sections, k.value, line);
    }
  }

  /** One more folder met on the way up goes at the end of the trail. */
  lemma TrailStep(s: seq<string>, lo: nat, hi: nat)
    requires 0 < lo <= hi <= |s|
    ensures Trail(s[lo - 1..hi]) == Trail(s[lo..hi]) + s[lo - 1] + "/"
  {
    assert s[lo - 1..hi] == [s[lo - 1]] + s[lo..hi];
    TrailCons(s[lo - 1], s[lo..hi]);
  }

  /** `function_ref` once the walk has met the `function` section at `k > 0`. */
  lemma FunctionRefAt(sections: seq<string>, k: nat, line: int)
    requires 0 < k < |sections| - 1 && LastIndexOf(sections, "function", |sections| - 1) == Some(k)
    ensures FunctionRefOf(sections, line)
            == Some(FunctionTag(sections[k - 1], Trail(sections[k + 1..|sections| - 1]), Stem(sections[|sections| - 1]), line))
  {
  }

  /** `function_ref` once the walk has met the `function` section at the top. */
  lemma FunctionRefAtTop(sections: seq<string>, line: int)
    requires 0 < |sections| - 1 && LastIndexOf(sections, "function", |sections| - 1) == Some(0)
    ensures FunctionRefOf(sections, line) == None
  {
  }

  /** `function_ref` when the walk meets no `function` section. */
  lemma FunctionRefNone(sections: seq<string>, line: int)
    requires |sections| >= 1 && LastIndexOf(sections, "function", |sections| - 1).None?
    ensures FunctionRefOf(sections, line)
            == Some(FunctionTag("None", Trail(sections[..|sections| - 1]), Stem(sections[|sections| - 1]), line))
  {
  }

  /** The tag `generic_ref(path)` makes: the namespace is the section just
      below the nearest `data` or `assets` directory above the file, the
      folders are those walked up to it with every occurrence of
      `<namespace>/` removed, and the name is the whole file name. Without such
      a directory the namespace stays `None`, and `None + '/'` raises. */
  function GenericRefText(path: string): Option<string> {
    GenericRefOf(Split(path, '\\'))
  }

  function GenericRefOf(sections: seq<string>): Option<string>
    requires |sections| >= 1
  {
    var n := |sections|;
    match LastRoot(sections, n - 1)
    case None => None
    case Some(k) =>
      var namespace := sections[k + 1];
      Some(GenericTag(namespace, Replace(Trail(sections[k + 1..n - 1]), namespace + "/", ""), sections[n - 1]))
  }

  /** `generic_ref(path)` */
  method GenericRef(path: string) returns (r: Option<string>)
    ensures r == GenericRefText(path)
  {
    var sections := Split(path, '\\');
    var n := |sections|;
    var name := "";
    var namespace: Option<string> := None;
    var folders := "";
    var i := 0;
    while i < n
      invariant 0 <= i <= n && namespace.None?
      invariant i >= 1 ==> && name == sections[n - 1]
                           && folders == Trail(sections[n - i..n - 1])
                           && LastRoot(sections, n - 1) == LastRoot(sections, n - i)
      invariant i == 0 ==> folders == ""
    {
      var section := sections[n - 1 - i];
      if i == 0 {
        name := section;
      } else if section == "data" || section == "assets" {
        namespace := Some(sections[n - i]);
        break;
      } else {
        TrailStep(sections, n - i, n - 1);
        folders := folders + section + "/";
      }
      i := i + 1;
    }
    if namespace.None? {
      assert LastRoot(sections, 0).None?;
      return None;
    }
    var ns := namespace.value;
    GenericRefFound(sections, n - 1 - i, ns, folders, name);
    return Some(GenericTag(ns, Replace(folders, ns + "/", ""), name));
  }

  /** `GenericRefAt` in the terms the walk has computed. */
  lemma GenericRefFound(sections: seq<string>, k: nat, ns: string, folders: string, name: string)
    requires k < |sections| - 1 && LastRoot(sections, |sections| - 1) == LastRoot(sections, k + 1)
    requires IsRoot(sections[k])
    requires ns == sections[k + 1] && folders == Trail(sections[k + 1..|sections| - 1]) && name == sections[|sections| - 1]
    ensures GenericRefOf(sections) == Some(GenericTag(ns, Replace(folders, ns + "/", ""), name))
  {
    GenericRefAt(sections, k);
  }

  /** `generic_ref` once the walk has met the root section at `k`. */
  lemma GenericRefAt(sections: seq<string>, k: nat)
    requires k < |sections| - 1 && LastRoot(sections, |sections| - 1) == LastRoot(sections, k + 1)
    requires IsRoot(sections[k])
    ensures GenericRefOf(sections)
            == Some(GenericTag(sections[k + 1], Replace(Trail(sections[k + 1..|sections| - 1]), sections[k + 1] + "/", ""), sections[|sections| - 1]))
  {
    assert LastRoot(sections, k + 1) == Some(k);
  }

  /** `function_ref` raises exactly when the nearest `function` directory
      above the file is the first section of the path. */
  lemma FunctionRefFails(sections: seq<string>, line: int)
    requires |sections| >= 1
    ensures FunctionRefOf(sections, line).None? <==>
              (sections[0] == "function" && |sections| > 1
               && forall m :: 0 < m < |sections| - 1 ==> sections[m] != "function")
  {
    var n := |sections|;
    var last := LastIndexOf(sections, "function", n - 1);
    if sections[0] == "function" && n > 1 && forall m :: 0 < m < n - 1 ==> sections[m] != "function" {
      assert last != None;
    }
  }

  lemma {:induction false} LastIndexFound(s: seq<string>, x: string, k: nat, hi: nat)
    requires k < hi <= |s| && s[k] == x && forall m :: k < m < hi ==> s[m] != x
    ensures LastIndexOf(s, x, hi) == Some(k)
    decreases hi
  {
    if hi - 1 != k {
      LastIndexFound(s, x, k, hi - 1);
    }
  }

  lemma {:induction false} LastRootFound(s: seq<string>, k: nat, hi: nat)
    requires k < hi <= |s| && IsRoot(s[k]) && forall m :: k < m < hi ==> !IsRoot(s[m])
    ensures LastRoot(s, hi) == Some(k)
    decreases hi
  {
    if hi - 1 != k {
      LastRootFound(s, k, hi - 1);
    }
  }

  /** When the nearest `function` directory above the file is at `k > 0`,
      the tag names the section before it as the namespace, the sections
      between it and the file as walked, and the file's stem. */
  lemma FunctionRefLayout(sections: seq<string>, k: nat, line: int)
    requires 0 < k < |sections| - 1 && sections[k] == "function"
    requires forall m :: k < m < |sections| - 1 ==> sections[m] != "function"
    ensures FunctionRefOf(sections, line)
            == Some(FunctionTag(sections[k - 1], Trail(sections[k + 1..|sections| - 1]), Stem(sections[|sections| - 1]), line))
  {
    LastIndexFound(sections, "function", k, |sections| - 1);
  }

  /** `generic_ref` raises exactly when no `data` or `assets` directory lies
      above the file. */
  lemma GenericRefFails(sections: seq<string>)
    requires |sections| >= 1
    ensures GenericRefOf(sections).None? <==> forall m :: 0 <= m < |sections| - 1 ==> !IsRoot(sections[m])
  {
  }

  /** A path without a backslash (a POSIX path) is a single section, with no
      `data` or `assets` directory above the file: `generic_ref` raises on it. */
  lemma GenericRefWithoutBackslash(path: string)
    requires '\\' !in path
    ensures GenericRefText(path).None?
  {
    SplitWithout(path, '\\');
  }

  /** `x` occurs in `t + x` only at the end. */
  predicate OnlyAtEnd(t: string, x: string) {
    forall j :: 0 <= j < |t| ==> !StartsWith(t[j..] + x, x)
  }

  /** Removing every occurrence of `x` from `t + x`, when it occurs there only
      at the end, leaves `t`. */
  lemma {:induction false} ReplaceDropsSuffix(t: string, x: string)
    requires x != [] && OnlyAtEnd(t, x)
    ensures Replace(t + x, x, "") == t
  {
    if t == [] {
      assert t + x == x;
      assert x[|x|..] == [];
    } else {
      assert t[0..] == t;
      assert !StartsWith(t + x, x);
      assert (t + x)[1..] == t[1..] + x;
      forall j | 0 <= j < |t[1..]|
        ensures !StartsWith(t[1..][j..] + x, x)
      {
        assert t[1..][j..] == t[j + 1..];
      }
      ReplaceDropsSuffix(t[1..], x);
      assert [t[0]] + t[1..] == t;
    }
  }

  /** When the nearest `data` or `assets` directory above the file is at
      `k`, and the section after it followed by `/` occurs in the folders
      walked below it only where the walk put it, the tag names that section
      as the namespace, the folders below it as walked, and the whole file
      name. */
  lemma GenericRefLayout(sections: seq<string>, k: nat)
    requires k + 2 < |sections| && IsRoot(sections[k])
    requires forall m :: k < m < |sections| - 1 ==> !IsRoot(sections[m])
    requires OnlyAtEnd(Trail(sections[k + 2..|sections| - 1]), sections[k + 1] + "/")
    ensures GenericRefOf(sections)
            == Some(GenericTag(sections[k + 1], Trail(sections[k + 2..|sections| - 1]), sections[|sections| - 1]))
  {
    var n := |sections|;
    var namespace := sections[k + 1];
    var dirs := sections[k + 2..n - 1];
    LastRootFound(sections, k, n - 1);
    assert sections[k + 1..n - 1] == [namespace] + dirs;
    TrailCons(namespace, dirs);
    ReplaceDropsSuffix(Trail(dirs), namespace + "/");
  }

  /** Walking onto one more section puts it, and a `/`, at the end. */
  lemma TrailCons(a: string, d: seq<string>)
    ensures Trail([a] + d) == Trail(d) + (a + "/")
  {
    assert ([a] + d)[1..] == d;
  }

  /* The folders both tags print are in walking order, the reverse of the
     path: a function at `ns\function\a\b\f.mcfunction` is tagged
     `[ns:b/a/f:…]`, where its location is `ns:a/b/f`. `generic_ref` also
     drops the namespace from its folders by replacing every `<namespace>/`
     in them, which cuts the end off any folder whose name ends with the
     namespace. The intended tags list the folders in path order. */

  /** The tag `function_ref` evidently means to make: as `FunctionRefOf`,
      with the folders in path order. */
  function FunctionRefIntended(sections: seq<string>, line: int): Option<string>
    requires |sections| >= 1
  {
    var n := |sections|;
    var name := Stem(sections[n - 1]);
    match LastIndexOf(sections, "function", n - 1)
    case None => Some(FunctionTag("None", Folders(sections[..n - 1]), name, line))
    case Some(k) =>
      if k == 0 then None
      else Some(FunctionTag(sections[k - 1], Folders(sections[k + 1..n - 1]), name, line))
  }

  /** The intended tag names the namespace before the nearest `function`
      directory and the folders below it in path order; it fails exactly where
      the program's does. */
  lemma FunctionRefIntendedLayout(sections: seq<string>, k: nat, line: int)
    requires 0 < k < |sections| - 1 && sections[k] == "function"
    requires forall m :: k < m < |sections| - 1 ==> sections[m] != "function"
    ensures FunctionRefIntended(sections, line)
            == Some(FunctionTag(sections[k - 1], Folders(sections[k + 1..|sections| - 1]), Stem(sections[|sections| - 1]), line))
    ensures FunctionRefIntended(sections, line).Some? && FunctionRefOf(sections, line).Some?
  {
    LastIndexFound(sections, "function", k, |sections| - 1);
  }

  /** The intended tag fails exactly where the program's does. */
  lemma FunctionRefIntendedFails(sections: seq<string>, line: int)
    requires |sections| >= 1
    ensures FunctionRefIntended(sections, line).None? <==> FunctionRefOf(sections, line).None?
  {
  }

  /** The intended tag differs from the program's only in the order of the
      folders: below the nearest `function` directory at `k`, the program's
      folders are the intended ones of the reversed sections. */
  lemma FunctionRefIntendedReorders(sections: seq<string>, k: nat, line: int)
    requires 0 < k < |sections| - 1 && LastIndexOf(sections, "function", |sections| - 1) == Some(k)
    ensures FunctionRefOf(sections, line)
            == Some(FunctionTag(sections[k - 1], Folders(Reverse(sections[k + 1..|sections| - 1])), Stem(sections[|sections| - 1]), line))
  {
    TrailReversed(sections[k + 1..|sections| - 1]);
    FunctionRefAt(sections, k, line);
  }

  /** As `FunctionRefIntendedReorders`, for a path without a `function`
      directory: all the folders above the file, reversed. */
  lemma FunctionRefIntendedReordersNone(sections: seq<string>, line: int)
    requires |sections| >= 1 && LastIndexOf(sections, "function", |sections| - 1).None?
    ensures FunctionRefOf(sections, line)
            == Some(FunctionTag("None", Folders(Reverse(sections[..|sections| - 1])), Stem(sections[|sections| - 1]), line))
  {
    TrailReversed(sections[..|sections| - 1]);
    FunctionRefNone(sections, line);
  }

  /** Two texts that differ only in a middle part of the same length differ. */
  lemma MiddleDiffers(p: string, a: string, b: string, q: string)
    requires |a| == |b| && a != b
    ensures p + a + q != p + b + q
  {
    assert (p + a + q)[|p|..|p| + |a|] == a;
    assert (p + b + q)[|p|..|p| + |b|] == b;
  }

  /** Where the folders sit in a formatted tag. */
  lemma TagSplit(c: string, namespace: string, f: string, name: string, t: string, r: string)
    ensures c + ("[" + namespace + ":" + f + name + ":" + t + "] ") + r
            == (c + ("[" + namespace + ":")) + f + (name + ":" + t + "] " + r)
  {
  }

  /** Tags that differ only in folders of the same length differ. */
  lemma FunctionTagsDiffer(namespace: string, f: string, g: string, name: string, line: int)
    requires |f| == |g| && f != g
    ensures FunctionTag(namespace, f, name, line) != FunctionTag(namespace, g, name, line)
  {
    var c := Concat([BOLD, RED]);
    var t := IntToString(line);
    TagSplit(c, namespace, f, name, t, RESET);
    TagSplit(c, namespace, g, name, t, RESET);
    MiddleDiffers(c + ("[" + namespace + ":"), f, g, name + ":" + t + "] " + RESET);
  }

  /** `ns\function\a\b\<file>`: the program tags it with `b/a/`, the
      intended tag has `a/b/`. */
  lemma FunctionRefReversedExample(file: string, line: int)
    ensures FunctionRefOf(["ns", "function", "a", "b", file], line) == Some(FunctionTag("ns", "b/a/", Stem(file), line))
    ensures FunctionRefIntended(["ns", "function", "a", "b", file], line) == Some(FunctionTag("ns", "a/b/", Stem(file), line))
    ensures FunctionRefOf(["ns", "function", "a", "b", file], line) != FunctionRefIntended(["ns", "function", "a", "b", file], line)
  {
    var s := ["ns", "function", "a", "b", file];
    assert s[2..4] == ["a", "b"];
    FunctionRefLayout(s, 1, line);
    FunctionRefIntendedLayout(s, 1, line);
    TrailOfTwo("a", "b");
    assert "b" + "/" + "a" + "/" == "b/a/";
    assert Folders(["a", "b"]) == "a/b/" by {
      assert ["a", "b"][1..] == ["b"];
      assert ["b"][1..] == [];
      assert Folders(["b"]) == "b/";
      assert "a" + "/" + "b/" == "a/b/";
    }
    assert "b/a/" != "a/b/" by {
      assert "b/a/"[0] == 'b';
    }
    FunctionTagsDiffer("ns", "b/a/", "a/b/", Stem(file), line);
  }

  /** The tag `generic_ref` evidently means to make: the namespace after the
      nearest `data` or `assets` directory, then the folders below the
      namespace in path order, then the file name. */
  function GenericRefIntended(sections: seq<string>): Option<string>
    requires |sections| >= 1
  {
    var n := |sections|;
    match LastRoot(sections, n - 1)
    case None => None
    case Some(k) =>
      var walked := sections[k + 1..n - 1];
      Some(GenericTag(sections[k + 1], Folders(if walked == [] then [] else walked[1..]), sections[n - 1]))
  }

  /** The intended tag lists every folder below the namespace in path order,
      whatever the folders are called, and fails exactly where the program's
      does. */
  lemma GenericRefIntendedLayout(sections: seq<string>, k: nat)
    requires k + 2 < |sections| && IsRoot(sections[k])
    requires forall m :: k < m < |sections| - 1 ==> !IsRoot(sections[m])
    ensures GenericRefIntended(sections)
            == Some(GenericTag(sections[k + 1], Folders(sections[k + 2..|sections| - 1]), sections[|sections| - 1]))
  {
    var n := |sections|;
    LastRootFound(sections, k, n - 1);
    assert sections[k + 1..n - 1][1..] == sections[k + 2..n - 1];
  }

  lemma GenericRefIntendedFails(sections: seq<string>)
    requires |sections| >= 1
    ensures GenericRefIntended(sections).None? <==> GenericRefOf(sections).None?
  {
  }

  /** `data\ns\ans\<file>`: the program cuts the folder `ans` down to `a`,
      the intended tag keeps `ans/`. */
  lemma GenericRefCutExample(file: string)
    ensures GenericRefOf(["data", "ns", "ans", file]) == Some(GenericTag("ns", "a", file))
    ensures GenericRefIntended(["data", "ns", "ans", file]) == Some(GenericTag("ns", "ans/", file))
    ensures GenericRefOf(["data", "ns", "ans", file]) != GenericRefIntended(["data", "ns", "ans", file])
  {
    var s := ["data", "ns", "ans", file];
    LastRootFound(s, 0, 3);
    assert s[1..3] == ["ns", "ans"];
    assert s[1..3][1..] == ["ans"];
    assert Trail(["ns", "ans"]) == "ans/ns/" by {
      TrailOfTwo("ns", "ans");
      assert "ans" + "/" + "ns" + "/" == "ans/ns/";
    }
    assert Replace("ans/ns/", "ns/", "") == "a" by {
      assert "ans/ns/"[..3] != "ns/" by {
        assert "ans/ns/"[0] == 'a';
      }
      assert "ans/ns/"[1..] == "ns/ns/";
      assert "ns/ns/"[..3] == "ns/";
      assert "ns/ns/"[3..] == "ns/";
      assert "ns/"[..3] == "ns/";
      assert "ns/"[3..] == "";
      assert Replace("", "ns/", "") == "";
    }
    assert Folders(["ans"]) == "ans/" by {
      assert ["ans"][1..] == [];
    }
    assert |GenericTag("ns", "a", file)| != |GenericTag("ns", "ans/", file)|;
  }
}
