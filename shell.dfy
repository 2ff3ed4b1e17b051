/**
 * The shell session of `ShellEmulatorGUI` (main.py): its state, the command
 * handlers `command_ls`, `command_cd`, `command_cat`, `command_chmod` and
 * `command_tree`, and `process_command`, which dispatches a typed line to
 * them. What a command does is first defined as an `Effect` on the state; the
 * handlers of the `Session` class are proved to apply exactly that effect.
 */
module Shell {
  import opened Wrappers
  import opened PosixPath
  import opened Resolver
  import opened VirtualFs
  import opened Octal
  import opened Tokens
  import opened Commands
  import opened Sequences

  // The lines the shell prints, each a separate insertion into the output.

  function DirMissing(path: string): string
  {
    "Ошибка: Директория '" + path + "' не найдена.\n"
  }

  function CdRefused(path: string): string
  {
    "Ошибка: Директория '" + path + "' не найдена или доступ запрещен.\n"
  }

  function FileMissing(file: string): string
  {
    "Ошибка: Файл '" + file + "' не найден.\n"
  }

  function ReadFailed(file: string, error: string): string
  {
    "Ошибка при чтении файла '" + file + "': " + error + "\n"
  }

  function ModeChanged(file: string, mode: string): string
  {
    "Права на файл '" + file + "' изменены на " + mode + ".\n"
  }

  const BadMode := "Ошибка: Неправильный формат прав. Используйте восьмеричное значение (например, 755).\n"

  function ChmodFailed(file: string, error: string): string
  {
    "Ошибка при изменении прав файла '" + file + "': " + error + "\n"
  }

  function PathMissing(file: string): string
  {
    "Ошибка: Файл или директория '" + file + "' не найдены.\n"
  }

  const CatUsageLine := "Использование: cat <имя файла>\n"

  const ChmodUsageLine := "Использование: chmod <файл> <права>\n"

  const ExitLine := "\n# Выход из эмулятора...\n"

  // The hints `process_command` prints after each command that reaches a handler.

  const LsHint := "\n# Используйте 'cd <папка>' для перехода в другую директорию.\n"

  function CdHint(cwd: string): string
  {
    "\n# Текущая директория: " + cwd + ". Введите 'ls' для просмотра содержимого.\n"
  }

  const CatHint := "\n# Вы можете прочитать другой файл с помощью 'cat <имя файла>'.\n"

  const ChmodHint := "\n# Права изменены. Используйте 'ls -l' для проверки прав.\n"

  const TreeHint := "\n# Это структура каталогов. Используйте 'cd <папка>' для навигации.\n"

  function UnknownCommand(verb: string): string
  {
    "Неизвестная команда: " + verb + "\n"
  }

  /** The node at a real path below the sandbox root, as the operating system finds it. */
  function HostNode(root: string, fs: Node, host: string): Option<Node>
  {
    var rs, hs := Components(root), Components(host);
    if rs <= hs then Lookup(fs, hs[|rs|..]) else None
  }

  /**
   * What a handler finds for its argument `path` typed in `cwd`: the path is
   * resolved against the virtual directory, mapped to a real path under
   * `root`, and looked up; `None` where `resolve_real_path` refuses it or
   * nothing is there.
   */
  function Target(root: string, fs: Node, cwd: string, path: string): Option<Node>
    requires IsHostPath(root)
  {
    match ResolveReal(root, ResolveVirtual(path, cwd))
    case None => None
    case Some(host) => HostNode(root, fs, host)
  }

  lemma SlashIsRoot()
    ensures Render(1, []) == "/"
    ensures IsVirtualPath("/") && Components("/") == [] && NormPath("/") == "/"
  {
    assert Render(1, []) == "/";
    ComponentsRender(1, []);
    LeadCountRender(1, []);
    NormPathRender(1, []);
  }

  /**
   * The sandbox seen from the handlers: every argument reaches the real path
   * of its resolved virtual path, and what is found there is what the virtual
   * tree holds at that path, never anything outside it.
   */
  lemma TargetIsLookup(root: string, fs: Node, cwd: string, path: string)
    requires IsHostPath(root) && IsAbsolute(cwd)
    ensures var v := ResolveVirtual(path, cwd);
      && IsVirtualPath(v)
      && ResolveReal(root, v) == Some(Render(1, Components(root) + Components(v)))
      && Target(root, fs, cwd, path) == Lookup(fs, Components(v))
  {
    var v := ResolveVirtual(path, cwd);
    ResolveVirtualCanonical(path, cwd);
    RealOfVirtual(root, v);
    var rs, vs := Components(root), Components(v);
    CanonicalConcat(rs, vs);
    ComponentsRender(1, rs + vs);
    assert (rs + vs)[|rs|..] == vs;
  }

  /** A change of permission bits `os.chmod` makes on a real path. */
  datatype ModeChange = ModeChange(host: string, mode: nat)

  /** What one command does to the session: its new directory, the lines it prints, a mode change, an exit request. */
  datatype Effect = Effect(cwd: string, lines: seq<string>, modeChange: Option<ModeChange>, exit: bool)

  function Say(cwd: string, lines: seq<string>): Effect
  {
    Effect(cwd, lines, None, false)
  }

  /** `e` followed by one more printed line. */
  function Then(e: Effect, line: string): (r: Effect)
    ensures r.cwd == e.cwd && r.modeChange == e.modeChange && r.exit == e.exit
    ensures r.lines == e.lines + [line]
  {
    e.(lines := e.lines + [line])
  }

  /** `command_ls` once its target is looked up: the names in it, one per line, or an error quoting `path`. */
  function LsAt(cwd: string, path: string, found: Option<Node>): (e: Effect)
    ensures e.cwd == cwd && e.modeChange.None? && !e.exit
  {
    match found
    case Some(Dir(es)) => Say(cwd, NameLines(Names(es), ""))
    case _ => Say(cwd, [DirMissing(path)])
  }

  /** `command_ls`: the names in the target directory, one per line, or an error quoting `path`. */
  function LsEffect(root: string, fs: Node, cwd: string, path: string): (e: Effect)
    requires IsHostPath(root)
    ensures e.cwd == cwd && e.modeChange.None? && !e.exit
  {
    LsAt(cwd, path, Target(root, fs, cwd, path))
  }

  /** `command_cd` once its target `v` is resolved: move there if it is a directory, else an error quoting `path`. */
  function CdAt(cwd: string, path: string, v: string, isDir: bool): (e: Effect)
    ensures e.cwd == (if isDir then v else cwd) && e.modeChange.None? && !e.exit
  {
    if isDir then Say(v, []) else Say(cwd, [CdRefused(path)])
  }

  /** `command_cd`: move to the resolved path if it is a directory, else an error quoting `path`. */
  function CdEffect(root: string, fs: Node, cwd: string, path: string): (e: Effect)
    requires IsHostPath(root)
    ensures e.modeChange.None? && !e.exit
  {
    CdAt(cwd, path, ResolveVirtual(path, cwd), IsDirNode(Target(root, fs, cwd, path)))
  }

  /** `command_cat` once its target is looked up; `readError` is what reading it raised, if anything. */
  function CatAt(cwd: string, file: string, found: Option<Node>, readError: Option<string>): (e: Effect)
    ensures e.cwd == cwd && e.modeChange.None? && !e.exit
  {
    match found
    case Some(File(content)) =>
      (match readError
       case None => Say(cwd, [content + "\n"])
       case Some(err) => Say(cwd, [ReadFailed(file, err)]))
    case _ => Say(cwd, [FileMissing(file)])
  }

  /** `command_cat`: the text of the target file and a newline, or an error quoting `file`. */
  function CatEffect(root: string, fs: Node, cwd: string, file: string, readError: Option<string>): (e: Effect)
    requires IsHostPath(root)
    ensures e.cwd == cwd && e.modeChange.None? && !e.exit
  {
    CatAt(cwd, file, Target(root, fs, cwd, file), readError)
  }

  /**
   * `command_chmod` once its target is looked up: `host` is the real path if
   * something exists there. The mode must be octal, then `os.chmod` may still
   * fail with `chmodError`.
   */
  function ChmodAt(cwd: string, file: string, mode: string, host: Option<string>,
                   chmodError: Option<string>): (e: Effect)
    ensures e.cwd == cwd && !e.exit
    ensures e.modeChange.Some? ==> host.Some? && e.modeChange.value.host == host.value
  {
    match host
    case None => Say(cwd, [PathMissing(file)])
    case Some(h) =>
      match ParseOctal(mode)
      case None => Say(cwd, [BadMode])
      case Some(bits) =>
        match chmodError
        case None => Effect(cwd, [ModeChanged(file, mode)], Some(ModeChange(h, bits)), false)
        case Some(err) => Say(cwd, [ChmodFailed(file, err)])
  }

  /**
   * `command_chmod`: the target must exist, then the mode must be octal, then
   * `os.chmod` may still fail with `chmodError`.
   */
  function ChmodEffect(root: string, fs: Node, cwd: string, file: string, mode: string,
                       chmodError: Option<string>): (e: Effect)
    requires IsHostPath(root)
    ensures e.cwd == cwd && !e.exit
  {
    var host := ResolveReal(root, ResolveVirtual(file, cwd));
    var existing := if host.Some? && HostNode(root, fs, host.value).Some? then host else None;
    ChmodAt(cwd, file, mode, existing, chmodError)
  }

  /** `command_tree`: the tree listing of the target directory, headed by its real base name. */
  function TreeEffect(root: string, fs: Node, cwd: string, path: string): (e: Effect)
    requires IsHostPath(root)
    ensures e.cwd == cwd && e.modeChange.None? && !e.exit
  {
    var host := ResolveReal(root, ResolveVirtual(path, cwd));
    TreeAt(cwd, path, host, if host.Some? then HostNode(root, fs, host.value) else None)
  }

  /** `command_tree` once its real path `host` is found and looked up. */
  function TreeAt(cwd: string, path: string, host: Option<string>, found: Option<Node>): (e: Effect)
    ensures e.cwd == cwd && e.modeChange.None? && !e.exit
  {
    if host.Some? && IsDirNode(found) then Say(cwd, TreeLines(Basename(host.value), found.value, 0))
    else Say(cwd, [DirMissing(path)])
  }

  /**
   * `process_command` after the line is read: the handler's effect, then the
   * command's hint. Only `cd` moves, only `chmod` changes modes, only `exit`
   * asks to leave.
   */
  function Run(root: string, fs: Node, cwd: string, cmd: Command, hostError: Option<string>): (e: Effect)
    requires IsHostPath(root)
    ensures e.cwd == cwd || cmd.Cd?
    ensures e.modeChange.Some? ==> cmd.Chmod?
    ensures e.exit <==> cmd.Exit?
  {
    match cmd
    case Blank => Say(cwd, [])
    case Ls(p) => Then(LsEffect(root, fs, cwd, p), LsHint)
    case Cd(p) => var e := CdEffect(root, fs, cwd, p); Then(e, CdHint(e.cwd))
    case Cat(f) => Then(CatEffect(root, fs, cwd, f, hostError), CatHint)
    case CatUsage => Say(cwd, [CatUsageLine])
    case Exit => Effect(cwd, [ExitLine], None, true)
    case Chmod(f, m) => Then(ChmodEffect(root, fs, cwd, f, m, hostError), ChmodHint)
    case ChmodUsage => Say(cwd, [ChmodUsageLine])
    case Tree(p) => Then(TreeEffect(root, fs, cwd, p), TreeHint)
    case Unknown(v) => Say(cwd, [UnknownCommand(v)])
  }

  /**
   * `cd` changes the directory exactly when its resolved target is a
   * directory of the virtual tree; otherwise it stays and the error quotes the
   * argument as typed.
   */
  lemma CdMovesOnlyIntoDirectories(root: string, fs: Node, cwd: string, path: string)
    requires IsHostPath(root) && IsAbsolute(cwd)
    ensures var v := ResolveVirtual(path, cwd);
      CdEffect(root, fs, cwd, path)
        == if IsDirAt(fs, Components(v)) then Say(v, []) else Say(cwd, [CdRefused(path)])
  {
    TargetIsLookup(root, fs, cwd, path);
  }

  /** `cd` moves only to a normalised path naming a directory of the virtual tree. */
  lemma CdKeepsDirectory(root: string, fs: Node, cwd: string, path: string)
    requires IsHostPath(root) && IsAbsolute(cwd)
    ensures var v := ResolveVirtual(path, cwd);
      IsVirtualPath(v) && (IsDirNode(Target(root, fs, cwd, path)) <==> IsDirAt(fs, Components(v)))
  {
    TargetIsLookup(root, fs, cwd, path);
  }

  /** Every command leaves the session in a directory of the virtual tree, named by a normalised path. */
  lemma RunKeepsDirectory(root: string, fs: Node, cwd: string, cmd: Command, hostError: Option<string>)
    requires IsHostPath(root) && IsVirtualPath(cwd) && IsDirAt(fs, Components(cwd))
    ensures var e := Run(root, fs, cwd, cmd, hostError);
      IsVirtualPath(e.cwd) && IsDirAt(fs, Components(e.cwd))
  {
    if cmd.Cd? {
      RunCd(root, fs, cwd, cmd.path, hostError);
      TargetIsLookup(root, fs, cwd, cmd.path);
    }
  }

  /** `cd /` and a bare `cd` go back to the root of the virtual tree from anywhere. */
  lemma CdSlashGoesHome(root: string, fs: Node, cwd: string, hostError: Option<string>)
    requires IsHostPath(root) && fs.Dir? && IsAbsolute(cwd)
    ensures Run(root, fs, cwd, Parse("cd" + " " + "/"), hostError) == Say("/", [CdHint("/")])
    ensures Run(root, fs, cwd, Parse("cd"), hostError) == Say("/", [CdHint("/")])
  {
    assert Parse("cd" + " " + "/") == Cd("/") by {
      assert IsWord("/");
      WordsSingle("/");
      ParseLine(Cd("/"));
    }
    WordsVerb("cd");
    DefaultArguments("cd");
    RunCd(root, fs, cwd, "/", hostError);
    CdSlash(root, fs, cwd);
    assert [] + [CdHint("/")] == [CdHint("/")];
  }

  lemma CdSlash(root: string, fs: Node, cwd: string)
    requires IsHostPath(root) && fs.Dir? && IsAbsolute(cwd)
    ensures CdEffect(root, fs, cwd, "/") == Say("/", [])
  {
    SlashIsRoot();
    TargetIsLookup(root, fs, cwd, "/");
  }

  /** A typed `return` is reported as an unknown command and the directory stays where it was. */
  lemma ReturnKeepsDirectory(root: string, fs: Node, cwd: string, hostError: Option<string>)
    requires IsHostPath(root)
    ensures Run(root, fs, cwd, Parse("return"), hostError) == Say(cwd, [UnknownCommand("return")])
  {
    ReturnIsUnknown();
  }

  /** A verb the shell does not know prints one line naming it and changes nothing. */
  lemma UnknownVerbChangesNothing(root: string, fs: Node, cwd: string, line: string, hostError: Option<string>)
    requires IsHostPath(root) && Words(line) != [] && Words(line)[0] !in Verbs()
    ensures Run(root, fs, cwd, Parse(line), hostError) == Say(cwd, [UnknownCommand(Words(line)[0])])
  {
    DispatchUnknown(Words(line));
    RunUnknown(root, fs, cwd, Words(line)[0], hostError);
  }

  lemma RunUnknown(root: string, fs: Node, cwd: string, v: string, hostError: Option<string>)
    requires IsHostPath(root)
    ensures Run(root, fs, cwd, Unknown(v), hostError) == Say(cwd, [UnknownCommand(v)])
  {
    var cmd := Unknown(v);
    assert cmd.Unknown? && !cmd.Blank? && !cmd.Ls? && !cmd.Cd? && !cmd.Cat? && !cmd.CatUsage? && !cmd.Exit? && !cmd.Chmod? && !cmd.ChmodUsage? && !cmd.Tree?;
    assert cmd.verb == v;
  }

  /** A line of nothing but white space is ignored: no output and no change. */
  lemma BlankLineDoesNothing(root: string, fs: Node, cwd: string, line: string, hostError: Option<string>)
    requires IsHostPath(root) && forall i | 0 <= i < |line| :: IsSpace(line[i])
    ensures Words(line) == [] && Run(root, fs, cwd, Parse(line), hostError) == Say(cwd, [])
  {
    WordsBlank(line);
  }

  /**
   * `chmod` checks that its target exists before it reads the mode, reads the
   * mode before it calls `os.chmod`, and on success records the octal value
   * for the real path and echoes the mode as typed.
   */
  lemma ChmodOutcome(root: string, fs: Node, cwd: string, file: string, mode: string,
                     chmodError: Option<string>)
    requires IsHostPath(root) && IsAbsolute(cwd)
    ensures var segs := Components(ResolveVirtual(file, cwd));
      var e := ChmodEffect(root, fs, cwd, file, mode, chmodError);
      && (Lookup(fs, segs).None? ==> e == Say(cwd, [PathMissing(file)]))
      && (Lookup(fs, segs).Some? && !IsOctal(mode) ==> e == Say(cwd, [BadMode]))
      && (Lookup(fs, segs).Some? && IsOctal(mode) && chmodError.Some? ==>
            e == Say(cwd, [ChmodFailed(file, chmodError.value)]))
      && (Lookup(fs, segs).Some? && IsOctal(mode) && chmodError.None? ==>
            e == Effect(cwd, [ModeChanged(file, mode)],
                        Some(ModeChange(Render(1, Components(root) + segs), OctalValue(mode))), false))
  {
    ChmodFindsLookup(root, fs, cwd, file, mode, chmodError);
  }

  lemma ChmodFindsLookup(root: string, fs: Node, cwd: string, file: string, mode: string,
                         chmodError: Option<string>)
    requires IsHostPath(root) && IsAbsolute(cwd)
    ensures var segs := Components(ResolveVirtual(file, cwd));
      ChmodEffect(root, fs, cwd, file, mode, chmodError)
        == ChmodAt(cwd, file, mode,
                   if Lookup(fs, segs).Some? then Some(Render(1, Components(root) + segs)) else None, chmodError)
  {
    TargetIsLookup(root, fs, cwd, file);
  }

  /** `cat` prints a file of the virtual tree with a newline after it, and reports anything else as missing. */
  lemma CatOutcome(root: string, fs: Node, cwd: string, file: string, readError: Option<string>)
    requires IsHostPath(root) && IsAbsolute(cwd)
    ensures var found := Lookup(fs, Components(ResolveVirtual(file, cwd)));
      var e := CatEffect(root, fs, cwd, file, readError);
      && (found.Some? && found.value.File? && readError.None? ==> e == Say(cwd, [found.value.content + "\n"]))
      && (found.Some? && found.value.File? && readError.Some? ==>
            e == Say(cwd, [ReadFailed(file, readError.value)]))
      && (!(found.Some? && found.value.File?) ==> e == Say(cwd, [FileMissing(file)]))
  {
    var found := Lookup(fs, Components(ResolveVirtual(file, cwd)));
    CatFindsLookup(root, fs, cwd, file, readError);
    if found.Some? && found.value.File? {
      assert found == Some(File(found.value.content));
    }
  }

  lemma CatFindsLookup(root: string, fs: Node, cwd: string, file: string, readError: Option<string>)
    requires IsHostPath(root) && IsAbsolute(cwd)
    ensures CatEffect(root, fs, cwd, file, readError)
         == CatAt(cwd, file, Lookup(fs, Components(ResolveVirtual(file, cwd))), readError)
  {
    TargetIsLookup(root, fs, cwd, file);
  }

  /** `ls` prints the names of the directory it resolves to, one per line, in listing order. */
  lemma LsOutcome(root: string, fs: Node, cwd: string, path: string)
    requires IsHostPath(root) && IsAbsolute(cwd)
    ensures var found := Lookup(fs, Components(ResolveVirtual(path, cwd)));
      var e := LsEffect(root, fs, cwd, path);
      && (IsDirNode(found) ==> e == Say(cwd, NameLines(Names(found.value.entries), "")))
      && (!IsDirNode(found) ==> e == Say(cwd, [DirMissing(path)]))
  {
    var found := Lookup(fs, Components(ResolveVirtual(path, cwd)));
    LsFindsLookup(root, fs, cwd, path);
    if IsDirNode(found) {
      assert found == Some(Dir(found.value.entries));
    }
  }

  lemma LsFindsLookup(root: string, fs: Node, cwd: string, path: string)
    requires IsHostPath(root) && IsAbsolute(cwd)
    ensures LsEffect(root, fs, cwd, path) == LsAt(cwd, path, Lookup(fs, Components(ResolveVirtual(path, cwd))))
  {
    TargetIsLookup(root, fs, cwd, path);
  }

  // `Run` on each command that reaches the file system is that command's effect, then its hint.

  lemma RunLs(root: string, fs: Node, cwd: string, p: string, hostError: Option<string>)
    requires IsHostPath(root)
    ensures Run(root, fs, cwd, Ls(p), hostError) == Then(LsEffect(root, fs, cwd, p), LsHint)
  {
    var cmd := Ls(p);
    assert cmd.Ls? && !cmd.Blank? && !cmd.Cd? && !cmd.Cat? && !cmd.CatUsage? && !cmd.Exit? && !cmd.Chmod? && !cmd.ChmodUsage? && !cmd.Tree?;
    assert cmd.path == p;
  }

  lemma RunCd(root: string, fs: Node, cwd: string, p: string, hostError: Option<string>)
    requires IsHostPath(root)
    ensures var e := CdEffect(root, fs, cwd, p);
      Run(root, fs, cwd, Cd(p), hostError) == Then(e, CdHint(e.cwd))
  {
    var cmd := Cd(p);
    assert cmd.Cd? && !cmd.Blank? && !cmd.Ls? && !cmd.Cat? && !cmd.CatUsage? && !cmd.Exit? && !cmd.Chmod? && !cmd.ChmodUsage? && !cmd.Tree?;
    assert cmd.path == p;
  }

  lemma RunCat(root: string, fs: Node, cwd: string, f: string, hostError: Option<string>)
    requires IsHostPath(root)
    ensures Run(root, fs, cwd, Cat(f), hostError) == Then(CatEffect(root, fs, cwd, f, hostError), CatHint)
  {
    var cmd := Cat(f);
    assert cmd.Cat? && !cmd.Blank? && !cmd.Ls? && !cmd.Cd? && !cmd.CatUsage? && !cmd.Exit? && !cmd.Chmod? && !cmd.ChmodUsage? && !cmd.Tree?;
    assert cmd.file == f;
  }

  lemma RunChmod(root: string, fs: Node, cwd: string, f: string, m: string, hostError: Option<string>)
    requires IsHostPath(root)
    ensures Run(root, fs, cwd, Chmod(f, m), hostError) == Then(ChmodEffect(root, fs, cwd, f, m, hostError), ChmodHint)
  {
    var cmd := Chmod(f, m);
    assert cmd.Chmod? && !cmd.Blank? && !cmd.Ls? && !cmd.Cd? && !cmd.Cat? && !cmd.CatUsage? && !cmd.Exit? && !cmd.ChmodUsage? && !cmd.Tree?;
    assert cmd.file == f && cmd.mode == m;
  }

  lemma RunTree(root: string, fs: Node, cwd: string, p: string, hostError: Option<string>)
    requires IsHostPath(root)
    ensures Run(root, fs, cwd, Tree(p), hostError) == Then(TreeEffect(root, fs, cwd, p), TreeHint)
  {
    var cmd := Tree(p);
    assert cmd.Tree? && !cmd.Blank? && !cmd.Ls? && !cmd.Cd? && !cmd.Cat? && !cmd.CatUsage? && !cmd.Exit? && !cmd.Chmod? && !cmd.ChmodUsage?;
    assert cmd.path == p;
  }

  /**
   * One session of the emulator over the tree extracted under `root`. The
   * output is kept as the sequence of insertions into the output widget.
   */
  class Session {
    const root: string
    const fs: Node
    var cwd: string
    var output: seq<string>
    var modes: map<string, nat>
    var exitRequested: bool
    var history: seq<string>

    /** The session is in a directory of the virtual tree, named by a normalised absolute path. */
    ghost predicate Valid()
      reads this`cwd
    {
      IsHostPath(root) && WellFormed(fs) && IsVirtualPath(cwd) && IsDirAt(fs, Components(cwd))
    }

    /** The permission table `modes` after the change `c`, if any. */
    static function WithChange(modes: map<string, nat>, c: Option<ModeChange>): map<string, nat>
    {
      match c
      case None => modes
      case Some(c) => modes[c.host := c.mode]
    }

    /** The state now is the state before with `e` applied. */
    twostate predicate Applied(e: Effect)
      reads this
    {
      && cwd == e.cwd
      && output == old(output) + e.lines
      && modes == WithChange(old(modes), e.modeChange)
      && exitRequested == (old(exitRequested) || e.exit)
    }

    /** `open_virtual_fs` once the archive is extracted: the session starts at `/`. */
    constructor (root: string, fs: Node)
      requires IsHostPath(root) && WellFormed(fs) && fs.Dir?
      ensures Valid()
      ensures this.root == root && this.fs == fs
      ensures cwd == "/" && output == [] && modes == map[] && !exitRequested && history == []
    {
      this.root := root;
      this.fs := fs;
      cwd := "/";
      output := [];
      modes := map[];
      exitRequested := false;
      history := [];
      new;
      SlashIsRoot();
    }

    /** Prints one line per name, each after `indent`, as the loops of `command_ls` and `command_tree` do. */
    method PrintNames(names: seq<string>, indent: string)
      modifies this`output
      ensures output == old(output) + NameLines(names, indent)
    {
      var i := 0;
      while i < |names|
        invariant 0 <= i <= |names|
        invariant output == old(output) + NameLines(names[..i], indent)
      {
        output := output + [indent + names[i] + "\n"];
        assert names[..i + 1][..i] == names[..i];
        i := i + 1;
      }
      assert names[..|names|] == names;
    }

    /** `command_ls` once its target is looked up. */
    method ListFound(path: string, found: Option<Node>)
      modifies this`output
      ensures Applied(LsAt(old(cwd), path, found))
    {
      if found.Some? && found.value.Dir? {
        PrintNames(Names(found.value.entries), "");
      } else {
        output := output + [DirMissing(path)];
      }
    }

    method CommandLs(path: string)
      requires Valid()
      modifies this`output
      ensures Applied(LsEffect(root, fs, old(cwd), path))
    {
      var host := ResolveReal(root, ResolveVirtual(path, cwd));
      var found := if host.Some? then HostNode(root, fs, host.value) else None;
      ListFound(path, found);
    }

    /** `command_cd` once its target `v` is resolved and known to be a directory or not. */
    method MoveTo(path: string, v: string, isDir: bool)
      modifies this`cwd, this`output
      ensures Applied(CdAt(old(cwd), path, v, isDir))
    {
      if isDir {
        assert output + [] == output;
        cwd := v;
      } else {
        output := output + [CdRefused(path)];
      }
    }

    method CommandCd(path: string)
      requires Valid()
      modifies this`cwd, this`output
      ensures Valid() && Applied(CdEffect(root, fs, old(cwd), path))
    {
      var v := ResolveVirtual(path, cwd);
      var host := ResolveReal(root, v);
      var isDir := host.Some? && IsDirNode(HostNode(root, fs, host.value));
      CdKeepsDirectory(root, fs, cwd, path);
      MoveTo(path, v, isDir);
    }

    /** `command_cat` once its target is looked up. */
    method PrintFile(file: string, found: Option<Node>, readError: Option<string>)
      modifies this`output
      ensures Applied(CatAt(old(cwd), file, found, readError))
    {
      if found.Some? && found.value.File? {
        if readError.None? {
          output := output + [found.value.content + "\n"];
        } else {
          output := output + [ReadFailed(file, readError.value)];
        }
      } else {
        output := output + [FileMissing(file)];
      }
    }

    /** `readError` is what opening or reading the file raised, if anything. */
    method CommandCat(file: string, readError: Option<string>)
      requires Valid()
      modifies this`output
      ensures Applied(CatEffect(root, fs, old(cwd), file, readError))
    {
      var host := ResolveReal(root, ResolveVirtual(file, cwd));
      var found := if host.Some? then HostNode(root, fs, host.value) else None;
      PrintFile(file, found, readError);
    }

    /** The `try` block of `command_chmod`, on the real path `host` of an existing target. */
    method ChangeMode(file: string, mode: string, host: Option<string>, chmodError: Option<string>)
      modifies this`output, this`modes
      ensures Applied(ChmodAt(old(cwd), file, mode, host, chmodError))
    {
      if host.Some? {
        var bits := ParseOctal(mode);
        if bits.None? {
          output := output + [BadMode];
        } else if chmodError.None? {
          modes := modes[host.value := bits.value];
          output := output + [ModeChanged(file, mode)];
        } else {
          output := output + [ChmodFailed(file, chmodError.value)];
        }
      } else {
        output := output + [PathMissing(file)];
      }
    }

    /** `chmodError` is what `os.chmod` raised, if anything. */
    method CommandChmod(file: string, mode: string, chmodError: Option<string>)
      requires Valid()
      modifies this`output, this`modes
      ensures Applied(ChmodEffect(root, fs, old(cwd), file, mode, chmodError))
    {
      var host := ResolveReal(root, ResolveVirtual(file, cwd));
      var existing := if host.Some? && HostNode(root, fs, host.value).Some? then host else None;
      ChangeMode(file, mode, existing, chmodError);
    }

    /** One step of the loop of `command_tree`: the directory's header, then its files one level deeper. */
    method PrintItem(item: WalkItem, top: string)
      modifies this`output
      ensures output == old(output) + ItemLines(item, top)
    {
      var level := CountChar(RelPath(item.root, top), '/');
      output := output + [Indent(level) + Basename(item.root) + "/\n"];
      PrintNames(item.files, Indent(level + 1));
    }

    /** The step `k` of the walk, after the steps before it. */
    method PrintStep(items: seq<WalkItem>, k: nat, top: string, ghost start: seq<string>)
      requires k < |items| && output == start + WalkLines(items[..k], top)
      modifies this`output
      ensures output == start + WalkLines(items[..k + 1], top)
    {
      PrintItem(items[k], top);
      WalkLinesSnoc(items, k, top);
      ConcatAssoc(start, WalkLines(items[..k], top), ItemLines(items[k], top));
    }

    /** The loop of `command_tree` over the steps of `os.walk`. */
    method PrintWalk(items: seq<WalkItem>, top: string)
      modifies this`output
      ensures output == old(output) + WalkLines(items, top)
    {
      var k := 0;
      while k < |items|
        invariant 0 <= k <= |items|
        invariant output == old(output) + WalkLines(items[..k], top)
      {
        PrintStep(items, k, top, old(output));
        k := k + 1;
      }
      assert items[..|items|] == items;
    }

    /** `command_tree` once its real path `host` is found and looked up: the walk of a directory. */
    method DrawTree(path: string, host: Option<string>, found: Option<Node>)
      requires host.Some? ==> IsHostPath(host.value)
      requires found.Some? ==> WellFormed(found.value)
      modifies this`output
      ensures Applied(TreeAt(old(cwd), path, host, found))
    {
      if host.Some? && IsDirNode(found) {
        var top, node := host.value, found.value;
        PrintWalk(Walk(top, node), top);
        WalkIsTree(Components(top), node);
      } else {
        output := output + [DirMissing(path)];
      }
    }

    method CommandTree(path: string)
      requires Valid()
      modifies this`output
      ensures Applied(TreeEffect(root, fs, old(cwd), path))
    {
      var host := ResolveReal(root, ResolveVirtual(path, cwd));
      var found := if host.Some? then HostNode(root, fs, host.value) else None;
      if found.Some? {
        LookupWellFormed(fs, Components(host.value)[|Components(root)|..]);
      }
      DrawTree(path, host, found);
    }

    /**
     * `process_command` on a typed line; `hostError` is what the operating
     * system raised for `cat` or `chmod`, if anything. A line with a word in
     * it is also recorded in the command history.
     */
    method ProcessCommand(line: string, hostError: Option<string>)
      requires Valid()
      modifies this`cwd, this`output, this`modes, this`exitRequested, this`history
      ensures Valid() && Applied(Run(root, fs, old(cwd), Parse(line), hostError))
      ensures history == old(history) + (if Words(line) == [] then [] else [line + "\n"])
    {
      var cmd := Parse(line);
      if cmd != Blank {
        history := history + [line + "\n"];
      }
      Execute(cmd, hostError);
    }

    /** Prints `line` after the lines of `e`, which the output since `start` shows. */
    method PrintAfter(ghost e: Effect, line: string, ghost start: seq<string>)
      requires output == start + e.lines
      modifies this`output
      ensures output == start + Then(e, line).lines
    {
      ConcatAssoc(start, e.lines, [line]);
      output := output + [line];
    }

    /** The `ls` branch of `process_command`: the listing, then its hint. */
    method ProcessLs(path: string)
      requires Valid()
      modifies this`output
      ensures Applied(Then(LsEffect(root, fs, old(cwd), path), LsHint))
    {
      CommandLs(path);
      PrintAfter(LsEffect(root, fs, old(cwd), path), LsHint, old(output));
    }

    /** The `cd` branch of `process_command`: the move, then a hint naming the directory now current. */
    method ProcessCd(path: string)
      requires Valid()
      modifies this`cwd, this`output
      ensures Valid()
      ensures var e := CdEffect(root, fs, old(cwd), path); Applied(Then(e, CdHint(e.cwd)))
    {
      CommandCd(path);
      PrintAfter(CdEffect(root, fs, old(cwd), path), CdHint(cwd), old(output));
    }

    /** The `cat` branch of `process_command` with a file name: the file, then its hint. */
    method ProcessCat(file: string, readError: Option<string>)
      requires Valid()
      modifies this`output
      ensures Applied(Then(CatEffect(root, fs, old(cwd), file, readError), CatHint))
    {
      CommandCat(file, readError);
      PrintAfter(CatEffect(root, fs, old(cwd), file, readError), CatHint, old(output));
    }

    /** The `chmod` branch of `process_command` with two arguments: the change, then its hint, whatever the outcome. */
    method ProcessChmod(file: string, mode: string, chmodError: Option<string>)
      requires Valid()
      modifies this`output, this`modes
      ensures Applied(Then(ChmodEffect(root, fs, old(cwd), file, mode, chmodError), ChmodHint))
    {
      CommandChmod(file, mode, chmodError);
      PrintAfter(ChmodEffect(root, fs, old(cwd), file, mode, chmodError), ChmodHint, old(output));
    }

    /** The `tree` branch of `process_command`: the listing, then its hint. */
    method ProcessTree(path: string)
      requires Valid()
      modifies this`output
      ensures Applied(Then(TreeEffect(root, fs, old(cwd), path), TreeHint))
    {
      CommandTree(path);
      PrintAfter(TreeEffect(root, fs, old(cwd), path), TreeHint, old(output));
    }

    /** The dispatch of `process_command` on a line already read as `cmd`. */
    method Execute(cmd: Command, hostError: Option<string>)
      requires Valid()
      modifies this`cwd, this`output, this`modes, this`exitRequested
      ensures Valid() && Applied(Run(root, fs, old(cwd), cmd, hostError))
    {
      match cmd {
        case Blank =>
          assert output + [] == output;
        case Ls(p) =>
          RunLs(root, fs, cwd, p, hostError);
          ProcessLs(p);
        case Cd(p) =>
          RunCd(root, fs, cwd, p, hostError);
          ProcessCd(p);
        case Cat(f) =>
          RunCat(root, fs, cwd, f, hostError);
          ProcessCat(f, hostError);
        case CatUsage => output := output + [CatUsageLine];
        case Exit =>
          output := output + [ExitLine];
          exitRequested := true;
        case Chmod(f, m) =>
          RunChmod(root, fs, cwd, f, m, hostError);
          ProcessChmod(f, m, hostError);
        case ChmodUsage => output := output + [ChmodUsageLine];
        case Tree(p) =>
          RunTree(root, fs, cwd, p, hostError);
          ProcessTree(p);
        case Unknown(v) => output := output + [UnknownCommand(v)];
      }
    }
  }
}
