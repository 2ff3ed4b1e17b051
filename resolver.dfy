/**
 * The shell's two path resolvers (main.py:211-233): a user path becomes a
 * normalised virtual path relative to the session's current directory, and
 * a virtual path becomes a host path that is accepted only when it lies at
 * or below the sandbox root.
 */
module Resolver {
  import opened Wrappers
  import opened Sequences
  import opened PosixPath

  /** A normalised virtual path: one or two leading separators, then proper names only. */
  predicate IsVirtualPath(v: string)
  {
    && (LeadCount(v) == 1 || LeadCount(v) == 2)
    && IsCanonical(Components(v))
    && v == Render(LeadCount(v), Components(v))
  }

  /** A normalised absolute host path with a single leading separator, as `os.path.abspath` gives. */
  predicate IsHostPath(p: string)
  {
    IsCanonical(Components(p)) && p == Render(1, Components(p))
  }

  /**
   * `resolve_virtual_path`: an absolute argument is normalised on its own, a
   * relative one after joining it onto `cwd`; a separator is put in front of
   * a result that lacks one.
   */
  function ResolveVirtual(path: string, cwd: string): (r: string)
    ensures IsAbsolute(r)
  {
    var v := if IsAbsolute(path) then NormPath(path) else NormPath(JoinPath(cwd, path));
    if IsAbsolute(v) then v else "/" + v
  }

  /**
   * `resolve_real_path`: the virtual path, stripped of its leading separators,
   * is joined under `root` and normalised; the result is given back only when
   * `os.path.commonpath` of it and `root` is `root` itself.
   */
  function ResolveReal(root: string, v: string): (r: Option<string>)
    requires IsHostPath(root)
    ensures r.Some? ==> IsHostPath(r.value) && Components(root) <= Components(r.value)
  {
    var joined := JoinPath(root, LStripSlashes(v));
    JoinedUnderRoot(root, LStripSlashes(v));
    var host := NormPath(joined);
    NormPathAbsolute(joined);
    ComponentsRender(1, Collapse(Split(joined), true));
    if CommonPath(root, host) == root then
      CommonPathIsPrefixTest(root, host);
      Some(host)
    else
      None
  }

  // ---------------------------------------------------------------------
  // Virtual paths

  lemma JoinPathAbsolute(a: string, b: string)
    requires IsAbsolute(a) && !IsAbsolute(b)
    ensures IsAbsolute(JoinPath(a, b))
  {
  }

  /**
   * With an absolute current directory, the resolved path is the plain
   * `normpath` result (the branch that prepends a separator is never taken)
   * and it is a normalised virtual path.
   */
  lemma ResolveVirtualCanonical(path: string, cwd: string)
    requires IsAbsolute(cwd)
    ensures ResolveVirtual(path, cwd)
         == NormPath(if IsAbsolute(path) then path else JoinPath(cwd, path))
    ensures IsVirtualPath(ResolveVirtual(path, cwd))
  {
    var s := if IsAbsolute(path) then path else JoinPath(cwd, path);
    if !IsAbsolute(path) {
      JoinPathAbsolute(cwd, path);
    }
    NormPathAbsolute(s);
    var k := LeadCount(s);
    var segs := Collapse(Split(s), true);
    ComponentsRender(k, segs);
    LeadCountRender(k, segs);
  }

  /** A normalised virtual path has no `.` or `..` piece anywhere. */
  lemma VirtualPathHasNoDots(v: string)
    requires IsVirtualPath(v)
    ensures "." !in Split(v) && ".." !in Split(v)
  {
    var segs := Components(v);
    SplitRender(LeadCount(v), segs);
    assert Split(v) == Repeat("", LeadCount(v)) + (if segs == [] then [""] else segs);
  }

  /** Resolving a resolved path again, from any directory, changes nothing. */
  lemma ResolveVirtualIdempotent(path: string, cwd: string, cwd': string)
    requires IsAbsolute(cwd)
    ensures ResolveVirtual(ResolveVirtual(path, cwd), cwd') == ResolveVirtual(path, cwd)
  {
    var v := ResolveVirtual(path, cwd);
    ResolveVirtualCanonical(path, cwd);
    NormPathRender(LeadCount(v), Components(v));
  }

  /** A proper name resolves to a child of the current directory. */
  lemma ResolveChild(cwd: string, name: string)
    requires IsVirtualPath(cwd) && IsName(name)
    ensures ResolveVirtual(name, cwd) == Render(LeadCount(cwd), Components(cwd) + [name])
  {
    assert name[0] in name;
    ResolveVirtualCanonical(name, cwd);
    NormJoinChild(LeadCount(cwd), Components(cwd), name);
  }

  lemma NormJoinChild(k: nat, segs: seq<string>, name: string)
    requires (k == 1 || k == 2) && IsCanonical(segs) && IsName(name)
    ensures NormPath(JoinPath(Render(k, segs), name)) == Render(k, segs + [name])
  {
    JoinPathChild(k, segs, name);
    NormPathRender(k, segs + [name]);
  }

  /** `..` resolves to the parent of the current directory, and to the root at the root. */
  lemma ResolveParent(cwd: string)
    requires IsVirtualPath(cwd)
    ensures var segs := Components(cwd);
      ResolveVirtual("..", cwd)
        == Render(LeadCount(cwd), if segs == [] then [] else segs[..|segs| - 1])
  {
    ResolveVirtualCanonical("..", cwd);
    NormJoinParent(LeadCount(cwd), Components(cwd));
  }

  lemma NormJoinParent(k: nat, segs: seq<string>)
    requires (k == 1 || k == 2) && IsCanonical(segs)
    ensures NormPath(JoinPath(Render(k, segs), ".."))
         == Render(k, if segs == [] then [] else segs[..|segs| - 1])
  {
    var pieces := segs + [".."];
    CollapseParent(segs);
    assert JoinPath(Render(k, segs), "..") == Render(k, pieces) by {
      JoinPathRender(k, segs, "..");
      if segs != [] {
        RenderAppend(k, segs, [".."]);
      }
    }
    NormPathPieces(k, pieces);
  }

  /** A trailing `..` after proper names drops the last of them, if any. */
  lemma CollapseParent(segs: seq<string>)
    requires IsCanonical(segs)
    ensures Collapse(segs + [".."], true) == if segs == [] then [] else segs[..|segs| - 1]
  {
    var pieces := segs + [".."];
    assert pieces[..|pieces| - 1] == segs;
    assert pieces[|pieces| - 1] == "..";
    CollapseNames([], segs, true);
    assert [] + segs == segs;
    if segs != [] {
      assert IsName(segs[|segs| - 1]);
    }
  }

  /** Any number of `..` resolved from the root stays at the root. */
  lemma DotsFromRoot(n: nat, segs: seq<string>)
    requires IsCanonical(segs)
    ensures ResolveVirtual(Join(Repeat("..", n) + segs), "/") == Render(1, segs)
  {
    var pieces := Repeat("..", n) + segs;
    var rel := Join(pieces);
    assert "/" == Render(1, []);
    assert !IsAbsolute(rel) && JoinPath("/", rel) == Render(1, pieces) by {
      if pieces != [] {
        JoinHead(pieces);
        assert pieces[0][0] in pieces[0];
      }
      JoinPathRender(1, [], rel);
    }
    assert Collapse(pieces, true) == segs by {
      CollapseNames(Repeat("..", n), segs, true);
      CollapseDotsAtRoot(n);
    }
    calc {
      ResolveVirtual(rel, "/");
      { ResolveVirtualCanonical(rel, "/"); }
      NormPath(JoinPath("/", rel));
      NormPath(Render(1, pieces));
      { NormPathPieces(1, pieces); }
      Render(1, segs);
    }
  }

  // ---------------------------------------------------------------------
  // Real paths

  lemma JoinedUnderRoot(root: string, rel: string)
    requires IsHostPath(root) && !IsAbsolute(rel)
    ensures IsAbsolute(JoinPath(root, rel))
  {
  }

  /**
   * The `commonpath` test of `resolve_real_path` accepts a path exactly when
   * the root's components are a prefix of the path's components.
   */
  lemma CommonPathIsPrefixTest(root: string, p: string)
    requires IsHostPath(root) && IsAbsolute(p)
    ensures CommonPath(root, p) == root <==> Components(root) <= Components(p)
  {
    var rs := Components(root);
    var common := CommonPrefix(rs, Components(p));
    assert CommonPath(root, p) == "/" + Join(common);
    assert root == "/" + Join(rs);
    if rs <= Components(p) {
      assert common == rs;
    }
    if CommonPath(root, p) == root {
      assert ("/" + Join(common))[1..] == Join(common);
      assert ("/" + Join(rs))[1..] == Join(rs);
      assert IsCanonical(common) by {
        forall i | 0 <= i < |common| ensures IsName(common[i]) {
          assert common[i] == rs[i];
        }
      }
      JoinInjective(common, rs);
    }
  }

  /**
   * The sandbox invariant stated on strings: an accepted path never merely
   * extends the root's last name, as `root + "2"` would; whatever follows
   * the root starts with a separator.
   */
  lemma NoSiblingOfRoot(root: string, v: string, suffix: string)
    requires IsHostPath(root) && root != "/"
    requires ResolveReal(root, v) == Some(root + suffix)
    ensures suffix == [] || suffix[0] == '/'
  {
    ExtensionOfRoot(root, suffix);
  }

  lemma ExtensionOfRoot(root: string, suffix: string)
    requires IsHostPath(root) && root != "/"
    requires IsHostPath(root + suffix) && Components(root) <= Components(root + suffix)
    ensures suffix == [] || suffix[0] == '/'
  {
    var host := root + suffix;
    var rs, xs := Components(root), Components(host);
    assert Render(1, []) == "/";
    if rs != xs {
      var tail := xs[|rs|..];
      assert xs == rs + tail;
      JoinAppend(rs, tail);
      assert host == root + ("/" + Join(tail));
      assert suffix == "/" + Join(tail) by {
        assert (root + suffix)[|root|..] == suffix;
        assert (root + ("/" + Join(tail)))[|root|..] == "/" + Join(tail);
      }
    } else {
      assert host == root;
      assert |suffix| == 0;
    }
  }

  lemma LStripRender(k: nat, segs: seq<string>)
    requires IsCanonical(segs)
    ensures LStripSlashes(Render(k, segs)) == Join(segs)
    decreases k
  {
    if k == 0 {
      if segs != [] {
        JoinHead(segs);
        assert segs[0][0] in segs[0];
      }
    } else {
      assert Render(k, segs) == "/" + Render(k - 1, segs);
      assert ("/" + Render(k - 1, segs))[1..] == Render(k - 1, segs);
      LStripRender(k - 1, segs);
    }
  }

  /**
   * For a normalised virtual path the host path is the root's components
   * followed by the virtual path's: never rejected, and never elsewhere.
   */
  lemma RealOfVirtual(root: string, v: string)
    requires IsHostPath(root) && IsVirtualPath(v)
    ensures ResolveReal(root, v) == Some(Render(1, Components(root) + Components(v)))
  {
    var rs, vs := Components(root), Components(v);
    LStripRender(LeadCount(v), vs);
    HostJoin(rs, vs);
    ComponentsRender(1, rs + vs);
    CommonPathIsPrefixTest(root, Render(1, rs + vs));
  }

  /** Joining normalised names under a normalised root and normalising appends the names. */
  lemma HostJoin(rs: seq<string>, vs: seq<string>)
    requires IsCanonical(rs) && IsCanonical(vs)
    ensures IsCanonical(rs + vs)
    ensures NormPath(JoinPath(Render(1, rs), Join(vs))) == Render(1, rs + vs)
  {
    if vs != [] {
      JoinHead(vs);
      assert vs[0][0] in vs[0];
    }
    JoinPathRender(1, rs, Join(vs));
    if rs == [] {
      HostJoinAtSlash(vs);
    } else if vs == [] {
      RootWithTrailingSlash(rs);
    } else {
      HostJoinNames(rs, vs);
    }
  }

  lemma HostJoinAtSlash(vs: seq<string>)
    requires IsCanonical(vs)
    ensures NormPath(Repeat('/', 1) + Join(vs)) == Render(1, [] + vs)
  {
    assert [] + vs == vs;
    NormPathRender(1, vs);
  }

  lemma HostJoinNames(rs: seq<string>, vs: seq<string>)
    requires IsCanonical(rs) && IsCanonical(vs) && rs != [] && vs != []
    ensures NormPath(Render(1, rs) + "/" + Join(vs)) == Render(1, rs + vs)
  {
    RenderAppend(1, rs, vs);
    NormPathRender(1, rs + vs);
  }

  /** A trailing separator after a normalised absolute path is removed by `normpath`. */
  lemma RootWithTrailingSlash(rs: seq<string>)
    requires IsCanonical(rs) && rs != []
    ensures NormPath(Render(1, rs) + "/" + Join([])) == Render(1, rs + [])
  {
    var pieces := rs + [""];
    assert Render(1, rs) + "/" + Join([]) == Render(1, pieces) by {
      RenderAppend(1, rs, [""]);
    }
    assert Collapse(pieces, true) == rs by {
      assert pieces[..|pieces| - 1] == rs;
      assert Collapse(pieces, true) == Step(Collapse(rs, true), "", true);
      CollapseNames([], rs, true);
      assert [] + rs == rs;
    }
    NormPathPieces(1, pieces);
    assert rs + [] == rs;
  }
}
