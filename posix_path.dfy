/**
 * The POSIX behaviour of the Python path helpers the shell is built on:
 * `str.split('/')`, `'/'.join`, `posixpath.normpath`, `posixpath.join`,
 * `posixpath.commonpath`, `posixpath.basename` and `str.lstrip('/')`.
 * Paths are plain strings; a path is taken apart into the pieces between
 * separators and put back together with `Join`.
 */
module PosixPath {
  import opened Sequences

  /** `s.split('/')`: the pieces between separators, never fewer than one. */
  function Split(s: string): (parts: seq<string>)
    ensures |parts| >= 1
    ensures forall i | 0 <= i < |parts| :: '/' !in parts[i]
    decreases |s|
  {
    if s == [] then [""]
    else if s[0] == '/' then [""] + Split(s[1..])
    else
      var rest := Split(s[1..]);
      [[s[0]] + rest[0]] + rest[1..]
  }

  /** `'/'.join(parts)`. */
  function Join(parts: seq<string>): string
  {
    if parts == [] then ""
    else if |parts| == 1 then parts[0]
    else parts[0] + "/" + Join(parts[1..])
  }

  /** A path segment that normalisation keeps: not empty, not `.` or `..`, no separator. */
  predicate IsName(c: string)
  {
    c != "" && c != "." && c != ".." && '/' !in c
  }

  predicate IsCanonical(segs: seq<string>)
  {
    forall i | 0 <= i < |segs| :: IsName(segs[i])
  }

  predicate IsAbsolute(s: string)
  {
    s != [] && s[0] == '/'
  }

  /** The path written with `lead` leading separators followed by `segs`. */
  function Render(lead: nat, segs: seq<string>): string
  {
    Repeat('/', lead) + Join(segs)
  }

  /**
   * How many leading separators `normpath` keeps: none for a relative path,
   * two for a path starting with exactly two, otherwise one (section 4.13 of
   * POSIX.1-2017, Base Definitions, leaves exactly two implementation-defined).
   */
  function LeadCount(s: string): (n: nat)
    ensures n <= 2
    ensures n == 0 <==> !IsAbsolute(s)
  {
    if !IsAbsolute(s) then 0
    else if |s| >= 2 && s[1] == '/' && (|s| == 2 || s[2] != '/') then 2
    else 1
  }

  /**
   * One turn of `normpath`'s loop over the pieces: empty pieces and `.` are
   * skipped; `..` removes the last kept name, is kept when there is nothing
   * to remove in a relative path or the last kept piece is `..`, and is
   * dropped at the root of an absolute path; every other piece is kept.
   */
  function Step(acc: seq<string>, c: string, rooted: bool): seq<string>
  {
    if c == "" || c == "." then acc
    else if c != ".." || (!rooted && acc == []) || (acc != [] && acc[|acc| - 1] == "..") then acc + [c]
    else if acc != [] then acc[..|acc| - 1]
    else acc
  }

  /** `normpath`'s loop, run over all pieces from left to right. */
  function Collapse(comps: seq<string>, rooted: bool): seq<string>
    decreases |comps|
  {
    if comps == [] then []
    else Step(Collapse(comps[..|comps| - 1], rooted), comps[|comps| - 1], rooted)
  }

  /** `posixpath.normpath(s)`. */
  function NormPath(s: string): (r: string)
    ensures r != []
  {
    if s == [] then "."
    else
      var lead := LeadCount(s);
      var p := Render(lead, Collapse(Split(s), lead > 0));
      if p == [] then "." else p
  }

  /** `posixpath.join(a, b)` for two arguments. */
  function JoinPath(a: string, b: string): string
  {
    if IsAbsolute(b) then b
    else if a == [] || a[|a| - 1] == '/' then a + b
    else a + "/" + b
  }

  /** `s.lstrip('/')`. */
  function LStripSlashes(s: string): (r: string)
    ensures !IsAbsolute(r)
    ensures |r| <= |s| && s == Repeat('/', |s| - |r|) + r
    decreases |s|
  {
    if IsAbsolute(s) then
      var r := LStripSlashes(s[1..]);
      ConcatAssoc("/", Repeat('/', |s| - 1 - |r|), r);
      assert s == "/" + s[1..];
      r
    else
      assert Repeat('/', 0) + s == s;
      s
  }

  /** The pieces `commonpath` compares: empty pieces and `.` left out. */
  function Filter(parts: seq<string>): seq<string>
    decreases |parts|
  {
    if parts == [] then []
    else if parts[0] == "" || parts[0] == "." then Filter(parts[1..])
    else [parts[0]] + Filter(parts[1..])
  }

  function Components(p: string): seq<string>
  {
    Filter(Split(p))
  }

  /** The longest common prefix of two piece sequences. */
  function CommonPrefix(a: seq<string>, b: seq<string>): (r: seq<string>)
    ensures r <= a && r <= b
    ensures |r| == |a| || |r| == |b| || a[|r|] != b[|r|]
    decreases |a|
  {
    if a == [] || b == [] || a[0] != b[0] then []
    else [a[0]] + CommonPrefix(a[1..], b[1..])
  }

  /**
   * `posixpath.commonpath([a, b])`; Python raises `ValueError` when one path
   * is absolute and the other relative, which the precondition excludes.
   */
  function CommonPath(a: string, b: string): string
    requires IsAbsolute(a) == IsAbsolute(b)
  {
    (if IsAbsolute(a) then "/" else "") + Join(CommonPrefix(Components(a), Components(b)))
  }

  /** `posixpath.basename(p)`: what follows the last separator. */
  function Basename(p: string): string
  {
    var parts := Split(p);
    parts[|parts| - 1]
  }

  // ---------------------------------------------------------------------
  // Splitting and joining

  lemma SplitSlash(b: string)
    ensures Split("/" + b) == [""] + Split(b)
  {
    assert ("/" + b)[1..] == b;
  }

  lemma {:induction false} SplitConcat(a: string, b: string)
    requires '/' !in a
    ensures Split(a + b) == [a + Split(b)[0]] + Split(b)[1..]
    decreases |a|
  {
    if a == [] {
      assert a + b == b;
      assert a + Split(b)[0] == Split(b)[0];
    } else {
      assert (a + b)[0] == a[0];
      assert (a + b)[1..] == a[1..] + b;
      SplitConcat(a[1..], b);
      assert [a[0]] + (a[1..] + Split(b)[0]) == a + Split(b)[0];
    }
  }

  /** Splitting what was joined gives back the pieces, when none holds a separator. */
  lemma {:induction false} SplitJoin(parts: seq<string>)
    requires |parts| >= 1
    requires forall i | 0 <= i < |parts| :: '/' !in parts[i]
    ensures Split(Join(parts)) == parts
    decreases |parts|
  {
    if |parts| == 1 {
      SplitConcat(parts[0], "");
      assert parts[0] + "" == parts[0];
    } else {
      var rest := parts[1..];
      SplitJoin(rest);
      SplitSlash(Join(rest));
      assert Join(parts) == parts[0] + ("/" + Join(rest));
      SplitConcat(parts[0], "/" + Join(rest));
      assert parts[0] + "" == parts[0];
      assert parts == [parts[0]] + rest;
    }
  }

  lemma {:induction false} JoinAppend(a: seq<string>, b: seq<string>)
    requires |a| >= 1 && |b| >= 1
    ensures Join(a + b) == Join(a) + "/" + Join(b)
    decreases |a|
  {
    assert (a + b)[0] == a[0];
    assert (a + b)[1..] == a[1..] + b;
    if |a| > 1 {
      JoinAppend(a[1..], b);
    }
  }

  lemma JoinHead(segs: seq<string>)
    requires |segs| >= 1 && segs[0] != ""
    ensures Join(segs) != [] && Join(segs)[0] == segs[0][0]
  {
  }

  lemma {:induction false} JoinLast(segs: seq<string>)
    requires |segs| >= 1 && segs[|segs| - 1] != ""
    ensures var j, last := Join(segs), segs[|segs| - 1];
      j != [] && j[|j| - 1] == last[|last| - 1]
    decreases |segs|
  {
    if |segs| > 1 {
      JoinLast(segs[1..]);
    }
  }

  /** `posixpath.join` of a relative path onto a normalised absolute one. */
  lemma JoinPathRender(k: nat, segs: seq<string>, rel: string)
    requires k >= 1 && IsCanonical(segs) && !IsAbsolute(rel)
    ensures JoinPath(Render(k, segs), rel)
         == if segs == [] then Repeat('/', k) + rel else Render(k, segs) + "/" + rel
  {
    var s := Render(k, segs);
    if segs == [] {
      assert s == Repeat('/', k);
      assert s[|s| - 1] == '/';
    } else {
      JoinLast(segs);
      var last := segs[|segs| - 1];
      assert last[|last| - 1] in last;
      assert s[|s| - 1] == Join(segs)[|Join(segs)| - 1];
    }
  }

  /** Appending pieces to a rendered path joins them on after a separator. */
  lemma RenderAppend(k: nat, a: seq<string>, b: seq<string>)
    requires |a| >= 1 && |b| >= 1
    ensures Render(k, a + b) == Render(k, a) + "/" + Join(b)
  {
    JoinAppend(a, b);
    ConcatAssoc(Repeat('/', k), Join(a), "/");
    ConcatAssoc(Repeat('/', k), Join(a) + "/", Join(b));
  }

  /** `posixpath.join` of a normalised absolute path and a proper name appends the name. */
  lemma JoinPathChild(k: nat, segs: seq<string>, name: string)
    requires k >= 1 && IsCanonical(segs) && IsName(name)
    ensures JoinPath(Render(k, segs), name) == Render(k, segs + [name])
  {
    assert name[0] in name;
    JoinPathRender(k, segs, name);
    if segs != [] {
      RenderAppend(k, segs, [name]);
    } else {
      assert segs + [name] == [name];
    }
  }

  /** A canonical segment sequence is determined by its joined string. */
  lemma JoinInjective(a: seq<string>, b: seq<string>)
    requires IsCanonical(a) && IsCanonical(b)
    requires Join(a) == Join(b)
    ensures a == b
  {
    if a != [] && b != [] {
      SplitJoin(a);
      SplitJoin(b);
    } else if a != [] {
      JoinHead(a);
    } else if b != [] {
      JoinHead(b);
    }
  }

  lemma {:induction false} SplitRender(k: nat, segs: seq<string>)
    requires forall i | 0 <= i < |segs| :: '/' !in segs[i]
    ensures Split(Render(k, segs)) == Repeat("", k) + (if segs == [] then [""] else segs)
    decreases k
  {
    if k == 0 {
      assert Render(k, segs) == Join(segs);
      if segs != [] {
        SplitJoin(segs);
      }
    } else {
      SplitRender(k - 1, segs);
      assert Render(k, segs) == "/" + Render(k - 1, segs);
      SplitSlash(Render(k - 1, segs));
    }
  }

  // ---------------------------------------------------------------------
  // Normalisation

  /** `..` pieces at the start of an absolute path are all dropped. */
  lemma {:induction false} CollapseDotsAtRoot(n: nat)
    ensures Collapse(Repeat("..", n), true) == []
    decreases n
  {
    if n > 0 {
      assert Repeat("..", n) == Repeat("..", n - 1) + [".."] by {
        assert |Repeat("..", n)| == |Repeat("..", n - 1) + [".."]|;
      }
      assert Repeat("..", n)[..n - 1] == Repeat("..", n - 1);
      CollapseDotsAtRoot(n - 1);
    }
  }

  lemma {:induction false} CollapseSkipsBlanks(k: nat, xs: seq<string>, rooted: bool)
    ensures Collapse(Repeat("", k) + xs, rooted) == Collapse(xs, rooted)
    decreases |xs|
  {
    if xs == [] {
      assert Repeat("", k) + xs == Repeat("", k);
      CollapseAllBlank(Repeat("", k), rooted);
    } else {
      var init := xs[..|xs| - 1];
      CollapseSkipsBlanks(k, init, rooted);
      assert (Repeat("", k) + xs)[..|Repeat("", k) + xs| - 1] == Repeat("", k) + init;
      assert (Repeat("", k) + xs)[|Repeat("", k) + xs| - 1] == xs[|xs| - 1];
    }
  }

  lemma {:induction false} CollapseAllBlank(comps: seq<string>, rooted: bool)
    requires forall i | 0 <= i < |comps| :: comps[i] == ""
    ensures Collapse(comps, rooted) == []
    decreases |comps|
  {
    if comps != [] {
      CollapseAllBlank(comps[..|comps| - 1], rooted);
    }
  }

  /** Proper names after any prefix are kept as they are. */
  lemma {:induction false} CollapseNames(xs: seq<string>, segs: seq<string>, rooted: bool)
    requires IsCanonical(segs)
    ensures Collapse(xs + segs, rooted) == Collapse(xs, rooted) + segs
    decreases |segs|
  {
    if segs == [] {
      assert xs + segs == xs;
    } else {
      var init := segs[..|segs| - 1];
      CollapseNames(xs, init, rooted);
      assert (xs + segs)[..|xs + segs| - 1] == xs + init;
      assert (xs + segs)[|xs + segs| - 1] == segs[|segs| - 1];
      assert init + [segs[|segs| - 1]] == segs;
    }
  }

  /** In an absolute path, the loop leaves only proper names. */
  lemma {:induction false} CollapseRooted(comps: seq<string>)
    requires forall i | 0 <= i < |comps| :: '/' !in comps[i]
    ensures IsCanonical(Collapse(comps, true))
    decreases |comps|
  {
    if comps != [] {
      var acc := Collapse(comps[..|comps| - 1], true);
      CollapseRooted(comps[..|comps| - 1]);
      var c := comps[|comps| - 1];
      if c != "" && c != "." && c == ".." && acc != [] {
        assert acc[|acc| - 1] != "..";
        assert IsCanonical(acc[..|acc| - 1]);
      }
    }
  }

  /** `normpath` of an absolute path: one or two separators, then proper names only. */
  lemma NormPathAbsolute(s: string)
    requires IsAbsolute(s)
    ensures LeadCount(s) == 1 || LeadCount(s) == 2
    ensures IsCanonical(Collapse(Split(s), true))
    ensures NormPath(s) == Render(LeadCount(s), Collapse(Split(s), true))
  {
    CollapseRooted(Split(s));
  }

  lemma LeadCountRender(k: nat, segs: seq<string>)
    requires k == 1 || k == 2
    requires forall i | 0 <= i < |segs| :: '/' !in segs[i]
    requires segs == [] || segs[0] != ""
    ensures LeadCount(Render(k, segs)) == k
  {
    var s := Render(k, segs);
    if segs != [] {
      JoinHead(segs);
      assert s[k] == segs[0][0];
      assert segs[0][0] in segs[0];
    }
  }

  /** `normpath` of an absolute path written as separators followed by arbitrary pieces. */
  lemma NormPathPieces(k: nat, pieces: seq<string>)
    requires k == 1 || k == 2
    requires forall i | 0 <= i < |pieces| :: '/' !in pieces[i]
    requires pieces == [] || pieces[0] != ""
    ensures NormPath(Render(k, pieces)) == Render(k, Collapse(pieces, true))
  {
    LeadCountRender(k, pieces);
    SplitRender(k, pieces);
    var tail := if pieces == [] then [""] else pieces;
    CollapseSkipsBlanks(k, tail, true);
    if pieces == [] {
      CollapseAllBlank([""], true);
    }
  }

  /** A path that is already normalised and absolute is a fixed point of `normpath`. */
  lemma NormPathRender(k: nat, segs: seq<string>)
    requires k == 1 || k == 2
    requires IsCanonical(segs)
    ensures NormPath(Render(k, segs)) == Render(k, segs)
  {
    var s := Render(k, segs);
    LeadCountRender(k, segs);
    SplitRender(k, segs);
    if segs == [] {
      CollapseAllBlank(Repeat("", k) + [""], true);
    } else {
      CollapseNames(Repeat("", k), segs, true);
      CollapseAllBlank(Repeat("", k), true);
      assert Collapse(Split(s), true) == segs;
    }
    assert s != [];
  }

  // ---------------------------------------------------------------------
  // Components

  lemma {:induction false} FilterAppend(xs: seq<string>, ys: seq<string>)
    ensures Filter(xs + ys) == Filter(xs) + Filter(ys)
    decreases |xs|
  {
    if xs != [] {
      assert (xs + ys)[0] == xs[0];
      assert (xs + ys)[1..] == xs[1..] + ys;
      FilterAppend(xs[1..], ys);
    } else {
      assert xs + ys == ys;
    }
  }

  lemma {:induction false} FilterAllBlank(xs: seq<string>)
    requires forall i | 0 <= i < |xs| :: xs[i] == ""
    ensures Filter(xs) == []
    decreases |xs|
  {
    if xs != [] {
      FilterAllBlank(xs[1..]);
    }
  }

  lemma {:induction false} FilterNames(segs: seq<string>)
    requires IsCanonical(segs)
    ensures Filter(segs) == segs
    decreases |segs|
  {
    if segs != [] {
      FilterNames(segs[1..]);
    }
  }

  /** The components of a normalised path are exactly its names. */
  lemma ComponentsRender(k: nat, segs: seq<string>)
    requires IsCanonical(segs)
    ensures Components(Render(k, segs)) == segs
  {
    SplitRender(k, segs);
    var tail := if segs == [] then [""] else segs;
    FilterAppend(Repeat("", k), tail);
    FilterAllBlank(Repeat("", k));
    if segs == [] {
      FilterAllBlank(tail);
    } else {
      FilterNames(segs);
    }
  }
}
