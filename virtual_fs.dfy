/**
 * The directory tree the archive is extracted into, as the shell sees it
 * through `os.path.isdir`, `os.path.isfile`, `os.listdir` and `os.walk`, and
 * the listing `tree` prints from the walk (main.py:289-297).
 */
module VirtualFs {
  import opened Wrappers
  import opened Sequences
  import opened PosixPath

  /** A file with its text, or a directory with its entries in listing order. */
  datatype Node = File(content: string) | Dir(entries: seq<Entry>)

  datatype Entry = Entry(name: string, node: Node)

  /** Every name in the tree is a real file name: not empty, not `.` or `..`, no `/`. */
  predicate WellFormed(n: Node)
    decreases n
  {
    n.Dir? ==> WellFormedEntries(n.entries)
  }

  predicate WellFormedEntries(es: seq<Entry>)
    decreases es
  {
    es != [] ==> IsName(es[0].name) && WellFormed(es[0].node) && WellFormedEntries(es[1..])
  }

  /** The entry of a directory called `name`, as the operating system finds it. */
  function Find(es: seq<Entry>, name: string): (r: Option<Node>)
    ensures r.None? <==> forall i | 0 <= i < |es| :: es[i].name != name
    ensures r.Some? ==> exists i | 0 <= i < |es| :: es[i] == Entry(name, r.value)
    decreases |es|
  {
    if es == [] then None
    else if es[0].name == name then Some(es[0].node)
    else
      var r := Find(es[1..], name);
      assert forall i | 1 <= i < |es| :: es[i] == es[1..][i - 1];
      r
  }

  /** The node reached from `n` by the path components `segs`. */
  function Lookup(n: Node, segs: seq<string>): Option<Node>
    decreases |segs|
  {
    if segs == [] then Some(n)
    else match n
      case File(_) => None
      case Dir(es) =>
        match Find(es, segs[0])
        case None => None
        case Some(child) => Lookup(child, segs[1..])
  }

  /** `os.path.isdir` on an optional node. */
  predicate IsDirNode(o: Option<Node>)
  {
    o.Some? && o.value.Dir?
  }

  /** A directory is reached from `n` by `segs`. */
  predicate IsDirAt(n: Node, segs: seq<string>)
  {
    IsDirNode(Lookup(n, segs))
  }

  /** What is found inside a well-formed tree is well-formed. */
  lemma {:induction false} LookupWellFormed(n: Node, segs: seq<string>)
    requires WellFormed(n) && Lookup(n, segs).Some?
    ensures WellFormed(Lookup(n, segs).value)
    decreases |segs|
  {
    if segs != [] {
      var child := Find(n.entries, segs[0]).value;
      FindWellFormed(n.entries, segs[0]);
      LookupWellFormed(child, segs[1..]);
    }
  }

  lemma {:induction false} FindWellFormed(es: seq<Entry>, name: string)
    requires WellFormedEntries(es) && Find(es, name).Some?
    ensures WellFormed(Find(es, name).value)
    decreases |es|
  {
    if es[0].name != name {
      FindWellFormed(es[1..], name);
    }
  }

  /** The names `os.listdir` reports for a directory, in its order. */
  function Names(es: seq<Entry>): (r: seq<string>)
    ensures |r| == |es| && forall i | 0 <= i < |es| :: r[i] == es[i].name
  {
    seq(|es|, i requires 0 <= i < |es| => es[i].name)
  }

  /** The `dirs` part of an `os.walk` step: the names of the subdirectories. */
  function SubdirNames(es: seq<Entry>): (r: seq<string>)
    ensures forall i | 0 <= i < |r| :: r[i] in Names(es)
    decreases |es|
  {
    if es == [] then []
    else (if es[0].node.Dir? then [es[0].name] else []) + SubdirNames(es[1..])
  }

  /** The `files` part of an `os.walk` step: the names of everything that is not a directory. */
  function FileNames(es: seq<Entry>): (r: seq<string>)
    ensures forall i | 0 <= i < |r| :: r[i] in Names(es)
    decreases |es|
  {
    if es == [] then []
    else (if es[0].node.Dir? then [] else [es[0].name]) + FileNames(es[1..])
  }

  /** One triple `(root, dirs, files)` of `os.walk`. */
  datatype WalkItem = WalkItem(root: string, dirs: seq<string>, files: seq<string>)

  /**
   * `os.walk(top)`, top-down: the step for `top`, then the walks of its
   * subdirectories in order, each rooted at `os.path.join(top, name)`.
   */
  function Walk(top: string, n: Node): (items: seq<WalkItem>)
    ensures IsAbsolute(top) ==> forall i | 0 <= i < |items| :: IsAbsolute(items[i].root)
    decreases n
  {
    match n
    case File(_) => []
    case Dir(es) => [WalkItem(top, SubdirNames(es), FileNames(es))] + WalkEntries(top, es)
  }

  function WalkEntries(top: string, es: seq<Entry>): (items: seq<WalkItem>)
    ensures IsAbsolute(top) ==> forall i | 0 <= i < |items| :: IsAbsolute(items[i].root)
    decreases es
  {
    if es == [] then []
    else
      (if es[0].node.Dir? then Walk(JoinPath(top, es[0].name), es[0].node) else [])
      + WalkEntries(top, es[1..])
  }

  /** `' ' * 4 * level`: four spaces per level. */
  function Indent(level: nat): string
  {
    if level == 0 then "" else "    " + Indent(level - 1)
  }

  /** `s.count(c)` for a one-character `c`. */
  function CountChar(s: string, c: char): (k: nat)
    ensures k <= |s|
    ensures k == 0 <==> c !in s
    decreases |s|
  {
    if s == [] then 0
    else
      var k := CountChar(s[1..], c);
      assert c in s[1..] ==> c in s;
      (if s[0] == c then 1 else 0) + k
  }

  /**
   * The components of `os.path.relpath`: after the common prefix of the start
   * `s` and the path `p`, one `..` for each component left in `s`, then the
   * rest of `p`.
   */
  function RelParts(s: seq<string>, p: seq<string>): seq<string>
    decreases |s|
  {
    if s != [] && p != [] && s[0] == p[0] then RelParts(s[1..], p[1..]) else Repeat("..", |s|) + p
  }

  /**
   * `os.path.relpath(path, start)` for absolute paths, `.` when they are the
   * same. Both are compared by the components of their normalised forms,
   * which `AbsoluteComponents` computes.
   */
  function RelPath(path: string, start: string): string
  {
    var rel := RelParts(AbsoluteComponents(start), AbsoluteComponents(path));
    if rel == [] then "." else Join(rel)
  }

  /** The non-empty pieces of `os.path.abspath(p)` for an absolute `p`. */
  function AbsoluteComponents(p: string): seq<string>
  {
    Collapse(Split(p), true)
  }

  /** `AbsoluteComponents` is the components of the normalised path. */
  lemma AbsoluteComponentsOfNormPath(p: string)
    requires IsAbsolute(p)
    ensures AbsoluteComponents(p) == Components(NormPath(p))
  {
    NormPathAbsolute(p);
    ComponentsRender(LeadCount(p), Collapse(Split(p), true));
  }

  /** The nesting level `tree` computes for a walk root: the separators in its relative path. */
  function Level(root: string, top: string): nat
  {
    CountChar(RelPath(root, top), '/')
  }

  /** One line per name, each after `indent`. */
  function NameLines(names: seq<string>, indent: string): seq<string>
    decreases |names|
  {
    if names == [] then []
    else NameLines(names[..|names| - 1], indent) + [indent + names[|names| - 1] + "\n"]
  }

  /** What `tree` prints for one walk step: the root's name with `/`, then its files one level deeper. */
  function ItemLines(item: WalkItem, top: string): seq<string>
  {
    DirLines(Level(item.root, top), Basename(item.root), item.files)
  }

  /** A directory's line at indentation `level`, then one line per file one level deeper. */
  function DirLines(level: nat, name: string, files: seq<string>): seq<string>
  {
    [Indent(level) + name + "/\n"] + NameLines(files, Indent(level + 1))
  }

  /** What `tree` prints for a whole walk. */
  function WalkLines(items: seq<WalkItem>, top: string): seq<string>
  {
    ConcatLines(items, item => ItemLines(item, top))
  }

  /** The lines `f` gives for each item, one item after the other. */
  function ConcatLines(items: seq<WalkItem>, f: WalkItem -> seq<string>): seq<string>
    decreases |items|
  {
    if items == [] then []
    else ConcatLines(items[..|items| - 1], f) + f(items[|items| - 1])
  }

  /**
   * The tree listing, defined on the tree itself: a directory at depth `d`
   * below the start prints its name at indentation level `max(d - 1, 0)`, its
   * files one level deeper, then its subdirectories at depth `d + 1`. The
   * start directory and its direct subdirectories thus share level 0.
   */
  function TreeLines(name: string, n: Node, depth: nat): seq<string>
    decreases n
  {
    match n
    case File(_) => []
    case Dir(es) =>
      DirLines(if depth == 0 then 0 else depth - 1, name, FileNames(es)) + SubtreeLines(es, depth + 1)
  }

  function SubtreeLines(es: seq<Entry>, depth: nat): seq<string>
    decreases es
  {
    if es == [] then []
    else
      (if es[0].node.Dir? then TreeLines(es[0].name, es[0].node, depth) else [])
      + SubtreeLines(es[1..], depth)
  }

  lemma {:induction false} ConcatLinesAppend(a: seq<WalkItem>, b: seq<WalkItem>, f: WalkItem -> seq<string>)
    ensures ConcatLines(a + b, f) == ConcatLines(a, f) + ConcatLines(b, f)
    decreases |b|
  {
    if b == [] {
      assert a + b == a;
    } else {
      var b', last := b[..|b| - 1], b[|b| - 1];
      assert (a + b)[..|a + b| - 1] == a + b';
      assert (a + b)[|a + b| - 1] == last;
      ConcatLinesAppend(a, b', f);
    }
  }

  /** The lines of one step of a walk below the start, at the level its depth gives. */
  lemma ItemLinesBelow(base: seq<string>, rel: seq<string>, item: WalkItem)
    requires IsCanonical(base) && IsCanonical(rel) && item.root == Render(1, base + rel)
    ensures WalkLines([item], Render(1, base))
         == DirLines(if rel == [] then 0 else |rel| - 1, Basename(item.root), item.files)
  {
    var f := i => ItemLines(i, Render(1, base));
    assert [item][..0] == [];
    assert ConcatLines([item], f) == ConcatLines([], f) + f(item);
    LevelBelow(base, rel);
  }

  /** Walking one more step prints that step's lines after the others. */
  lemma WalkLinesSnoc(items: seq<WalkItem>, k: nat, top: string)
    requires k < |items|
    ensures WalkLines(items[..k + 1], top) == WalkLines(items[..k], top) + ItemLines(items[k], top)
  {
    assert items[..k + 1][..k] == items[..k];
  }

  lemma WalkLinesAppend(a: seq<WalkItem>, b: seq<WalkItem>, top: string)
    ensures WalkLines(a + b, top) == WalkLines(a, top) + WalkLines(b, top)
  {
    ConcatLinesAppend(a, b, item => ItemLines(item, top));
  }

  lemma RenderComponents(segs: seq<string>)
    requires IsCanonical(segs)
    ensures IsAbsolute(Render(1, segs)) && AbsoluteComponents(Render(1, segs)) == segs
  {
    assert Repeat('/', 1) == "/";
    NormPathRender(1, segs);
    ComponentsRender(1, segs);
    AbsoluteComponentsOfNormPath(Render(1, segs));
  }

  lemma {:induction false} RelPartsBelow(base: seq<string>, rel: seq<string>)
    ensures RelParts(base, base + rel) == rel
    decreases |base|
  {
    if base == [] {
      assert Repeat("..", 0) + ([] + rel) == rel;
    } else {
      assert (base + rel)[1..] == base[1..] + rel;
      RelPartsBelow(base[1..], rel);
    }
  }

  /** `relpath` of a descendant: the path below the start, or `.` for the start itself. */
  lemma RelPathBelow(base: seq<string>, rel: seq<string>)
    requires IsCanonical(base) && IsCanonical(rel)
    ensures IsCanonical(base + rel)
    ensures RelPath(Render(1, base + rel), Render(1, base)) == if rel == [] then "." else Join(rel)
  {
    var segs := base + rel;
    CanonicalConcat(base, rel);
    RenderComponents(base);
    RenderComponents(segs);
    RelPartsBelow(base, rel);
  }

  lemma CanonicalConcat(a: seq<string>, b: seq<string>)
    requires IsCanonical(a) && IsCanonical(b)
    ensures IsCanonical(a + b)
  {
    forall i | 0 <= i < |a + b| ensures IsName((a + b)[i]) {
      if i >= |a| { assert (a + b)[i] == b[i - |a|]; }
    }
  }

  /** Joining names without `/` with `/` gives one separator fewer than names. */
  lemma {:induction false} CountSeparators(segs: seq<string>)
    requires segs != [] && forall i | 0 <= i < |segs| :: '/' !in segs[i]
    ensures CountChar(Join(segs), '/') == |segs| - 1
    decreases |segs|
  {
    if |segs| > 1 {
      CountSeparators(segs[1..]);
      CountAppend(segs[0], "/" + Join(segs[1..]), '/');
      CountAppend("/", Join(segs[1..]), '/');
      assert segs[0] + "/" + Join(segs[1..]) == segs[0] + ("/" + Join(segs[1..]));
    }
  }

  lemma {:induction false} CountAppend(s: string, t: string, c: char)
    ensures CountChar(s + t, c) == CountChar(s, c) + CountChar(t, c)
    decreases |s|
  {
    if s == [] {
      assert s + t == t;
    } else {
      assert (s + t)[1..] == s[1..] + t;
      CountAppend(s[1..], t, c);
    }
  }

  /** The level `tree` gives a directory `rel` below the start: 0 at the start, else one less than its depth. */
  lemma LevelBelow(base: seq<string>, rel: seq<string>)
    requires IsCanonical(base) && IsCanonical(rel)
    ensures Level(Render(1, base + rel), Render(1, base)) == if rel == [] then 0 else |rel| - 1
  {
    RelPathBelow(base, rel);
    if rel != [] {
      CountSeparators(rel);
    } else {
      assert '/' !in ".";
    }
  }

  /** The base name of a canonical absolute path is its last component. */
  lemma BasenameRender(segs: seq<string>)
    requires IsCanonical(segs) && segs != []
    ensures Basename(Render(1, segs)) == segs[|segs| - 1]
  {
    SplitRender(1, segs);
  }

  /**
   * What `tree` prints while walking a directory `rel` below the start `base`
   * is the tree listing of that directory at depth `|rel|`.
   */
  lemma {:induction false} WalkRendersTree(base: seq<string>, rel: seq<string>, n: Node)
    requires IsCanonical(base) && IsCanonical(rel) && WellFormed(n)
    ensures WalkLines(Walk(Render(1, base + rel), n), Render(1, base))
         == TreeLines(Basename(Render(1, base + rel)), n, |rel|)
    decreases n
  {
    match n {
      case File(_) =>
      case Dir(es) =>
        var top, start := Render(1, base + rel), Render(1, base);
        var item := WalkItem(top, SubdirNames(es), FileNames(es));
        var rest := WalkEntries(top, es);
        WalkLinesAppend([item], rest, start);
        ItemLinesBelow(base, rel, item);
        WalkEntriesRenderTree(base, rel, es);
    }
  }

  lemma {:induction false} WalkEntriesRenderTree(base: seq<string>, rel: seq<string>, es: seq<Entry>)
    requires IsCanonical(base) && IsCanonical(rel) && WellFormedEntries(es)
    ensures WalkLines(WalkEntries(Render(1, base + rel), es), Render(1, base))
         == SubtreeLines(es, |rel| + 1)
    decreases es
  {
    if es != [] {
      var top, start := Render(1, base + rel), Render(1, base);
      var e := es[0];
      var first := if e.node.Dir? then Walk(JoinPath(top, e.name), e.node) else [];
      var rest := WalkEntries(top, es[1..]);
      WalkLinesAppend(first, rest, start);
      if e.node.Dir? {
        WalkChildRendersTree(base, rel, e);
      }
      WalkEntriesRenderTree(base, rel, es[1..]);
    }
  }

  lemma {:induction false} WalkChildRendersTree(base: seq<string>, rel: seq<string>, e: Entry)
    requires IsCanonical(base) && IsCanonical(rel) && IsName(e.name) && WellFormed(e.node)
    ensures WalkLines(Walk(JoinPath(Render(1, base + rel), e.name), e.node), Render(1, base))
         == TreeLines(e.name, e.node, |rel| + 1)
    decreases e
  {
    var rel' := rel + [e.name];
    assert base + rel' == (base + rel) + [e.name];
    CanonicalConcat(base, rel);
    CanonicalConcat(rel, [e.name]);
    JoinPathChild(1, base + rel, e.name);
    WalkRendersTree(base, rel', e.node);
    BasenameRender(base + rel');
  }

  /** `tree` on a directory prints its tree listing, headed by the directory's own base name. */
  lemma WalkIsTree(base: seq<string>, n: Node)
    requires IsCanonical(base) && WellFormed(n)
    ensures WalkLines(Walk(Render(1, base), n), Render(1, base))
         == TreeLines(Basename(Render(1, base)), n, 0)
  {
    WalkRendersTree(base, [], n);
    assert base + [] == base;
  }
}
