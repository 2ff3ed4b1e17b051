# Shell emulator sandbox and command interpreter

A Dafny model of the core of `ShellEmulatorGUI` in `main.py`: a small
Unix-like shell over a directory tree extracted from a zip archive. The user
types a line; `process_command` cuts it into words and dispatches on the first
one to `ls`, `cd`, `cat`, `chmod`, `tree` or `exit`. Every path the user types
goes through two resolvers:

- `resolve_virtual_path` turns it into a normalised absolute *virtual* path,
  relative to the session's current virtual directory;
- `resolve_real_path` maps that virtual path to a *real* path under the
  sandbox root `root_dir`, and refuses anything that `os.path.commonpath`
  shows to lie outside the root.

The model is split into modules that follow that structure:

| file | module | what it holds |
|---|---|---|
| `sequences.dfy` | `Sequences` | regrouping of concatenations, used by the string proofs |
| `wrappers.dfy` | `Wrappers` | `Option`, for Python's `None` |
| `tokens.dfy` | `Tokens` | `str.split()` (white-space splitting) and `' '.join` |
| `commands.dfy` | `Commands` | the `Command` datatype and `Parse`, the tokenising and dispatch of `process_command` |
| `octal.dfy` | `Octal` | `int(mode, 8)` as used by `chmod` |
| `posix_path.dfy` | `PosixPath` | `posixpath.normpath`, `join`, `commonpath`, `basename`, `str.lstrip('/')` on strings |
| `resolver.dfy` | `Resolver` | `resolve_virtual_path` and `resolve_real_path`, and the sandbox properties |
| `virtual_fs.dfy` | `VirtualFs` | the extracted tree as `Node = File(content) \| Dir(entries)`, `os.listdir`, `os.walk`, `os.path.relpath` and the `tree` listing |
| `shell.dfy` | `Shell` | the effect of each command as a function, and the `Session` class whose methods are the handlers and `process_command` |

The host file system becomes a value: the tree under `root_dir` is a `Node`,
and a real path is looked up in it by its components below the root
(`Shell.HostNode`). `Shell.TargetIsLookup` proves that, for every argument,
the real path a handler reaches is exactly the node of the virtual tree at
the resolved virtual path. What a command does is first stated as a pure
`Effect`: its new directory, the lines it prints, the permission change it
makes and whether it asks to exit. `Shell.Run` is that effect for a whole
parsed command, with the hint line `process_command` prints after it. The
methods of `Shell.Session` change the fields `cwd`, `output`, `modes`,
`exitRequested` and `history` step by step, as the Python does. Each method
is proved to apply exactly the corresponding effect, and to keep the session
in a directory of the virtual tree (`Valid`).

The output widget is modelled as the sequence of strings inserted into it, in
order. The command-history widget is the sequence of lines recorded in it.

Behaviour of the code that the model keeps as written:

- A typed `return` is not a command. It reaches the unknown-command branch
  (main.py:206-207) and leaves the directory unchanged
  (`Shell.ReturnKeepsDirectory`). Only the `return` button resets the
  directory, because it types `cd /` (main.py:137-139).
  `test_shell_emulator.py:126-135` expects a typed `return` to go back to
  `/`. The model follows the code, so that test disagrees with it.
- `chmod` prints its hint "Права изменены…" after every two-argument call,
  including calls that failed. The other hints are likewise printed whatever
  the handler's outcome.
- `tree` gives the start directory and its direct subdirectories the same
  indentation: the level is the number of separators in
  `os.path.relpath(root, start)`, which is 0 for both `.` and `a`.
- `normpath` keeps exactly two leading separators. So `//a` stays `//a`,
  and virtual paths may start with `//` (`Resolver.IsVirtualPath`).

## Model

| member | source | states |
|---|---|---|
| Tokens.WordsBlank | main.py:155-159 | a line has no words exactly when every character of it is white space |
| Tokens.WordsUnwords | main.py:175 | splitting words that `' '.join` put together gives the same words back |
| Commands.Parse | main.py:154-207 | the command is `Blank` exactly when the line has no words; an unknown command's verb is a word that is none of the six verbs |
| Commands.ParseLine | main.py:156-207 | every command a line can carry is read back from its line: `Parse(Line(c)) == c` |
| Commands.CdJoinsWords | main.py:174-182 | for any line whose words are `cd` or `cat` followed by at least one more, the argument is those words joined by single spaces, however the line spaces them |
| Commands.ListingsTakeFirstArgument | main.py:168-169 | for any line whose words are `ls` or `tree` followed by at least one more, the argument is the first of them and the rest are ignored |
| Commands.DefaultArguments | main.py:169-175 | any line whose only word is `cd` is `cd /`; one whose only word is `ls` or `tree` lists `.` |
| Commands.UsageWithoutArguments | main.py:180-199 | a line whose only word is `cat`, and a `chmod` line with any number of arguments other than two, give only the usage commands |
| Commands.ChmodTakesTwoArguments | main.py:192-194 | a `chmod` line with exactly two arguments changes the first to the mode given by the second |
| Commands.ReturnIsUnknown | main.py:206-207 | a typed `return` is an unknown command |
| Octal.ParseOctalNumeral | main.py:272 | the mode check reads every octal numeral back as its number |
| Octal.ParseOctalRejects | main.py:272 | a mode with any character outside 0-7 is refused |
| Octal.ParseOctalExamples | main.py:272 | `644` and `755` are read as 420 and 493; `xyz` and `8` are refused |
| PosixPath.LStripSlashes | main.py:227 | the result does not start with a separator and is what follows the leading separators of the input |
| PosixPath.NormPathAbsolute | main.py:215-217 | `normpath` of an absolute path keeps one or two leading separators, followed by proper names only |
| PosixPath.NormPathRender | main.py:215-217 | a path that is already normalised and absolute is a fixed point of `normpath` |
| Resolver.ResolveVirtual | main.py:211-223 | the resolved virtual path is absolute |
| Resolver.ResolveVirtualCanonical | main.py:213-223 | from an absolute directory the resolved path is the plain `normpath` result, and it is a normalised virtual path: one or two separators, then names other than `.`, `..` and the empty name |
| Resolver.VirtualPathHasNoDots | main.py:211-223 | a normalised virtual path has no `.` or `..` piece |
| Resolver.ResolveVirtualIdempotent | main.py:214-215 | resolving a resolved path again, from any directory, gives it back unchanged |
| Resolver.ResolveChild | main.py:216-217 | a proper name resolves to that child of the current directory |
| Resolver.ResolveParent | main.py:216-217 | `..` resolves to the parent of the current directory, and to the root itself at the root |
| Resolver.DotsFromRoot | main.py:214-217 | any number of leading `..` typed at `/` is clamped at the root: `../../etc/passwd` from `/` gives `/etc/passwd` |
| Resolver.ResolveReal | main.py:225-233 | an accepted real path is a normalised absolute path whose components begin with those of the root |
| Resolver.CommonPathIsPrefixTest | main.py:230 | the `commonpath` test accepts a path exactly when the root's components are a prefix of the path's |
| Resolver.NoSiblingOfRoot | main.py:225-233 | an accepted real path that extends the root's text continues it with a separator, so a sibling such as `root + "2"` is never accepted |
| Resolver.RealOfVirtual | main.py:225-233 | a normalised virtual path is never refused; its real path is the root's components followed by its own |
| VirtualFs.CountChar | main.py:290 | the count is at most the length, and zero exactly when the character does not occur |
| VirtualFs.LevelBelow | main.py:290-291 | the level `tree` computes for a directory below the start is 0 at the start and its depth minus one below it |
| VirtualFs.WalkRendersTree | main.py:289-295 | printing the `os.walk` steps of a directory gives its tree listing: pre-order, each directory's line followed by its files, then its subdirectories |
| VirtualFs.WalkIsTree | main.py:285-297 | `tree` on a directory prints the tree listing headed by the directory's base name, a directory at depth `d` at indent `4*max(d-1,0)` and its files 4 spaces deeper |
| Shell.TargetIsLookup | main.py:236-237 | every handler's argument reaches the real path of its resolved virtual path, and what is found there is the virtual tree's node at that path |
| Shell.LsOutcome | main.py:235-243 | `ls` prints the names of a directory one per line, in listing order; anything else gives the error quoting the argument |
| Shell.CdMovesOnlyIntoDirectories | main.py:245-252 | `cd` moves to the resolved path exactly when a directory is there; otherwise it stays and the error quotes the argument |
| Shell.CdKeepsDirectory | main.py:245-249 | the path `cd` would move to is a normalised virtual path, and its target is a directory exactly when the tree has a directory there |
| Shell.CatOutcome | main.py:254-265 | `cat` prints a file's text followed by a newline, or the read error, and reports anything that is not a file as missing |
| Shell.ChmodAt | main.py:270-283 | a permission change is made only for an existing target, and on its real path |
| Shell.ChmodOutcome | main.py:267-283 | `chmod` checks existence before the mode, the mode before `os.chmod`; on success it records the octal value for the real path and echoes the mode as typed |
| Shell.Run | main.py:154-207 | only `cd` moves, only `chmod` changes permissions, and a command asks to exit exactly when it is `exit` |
| Shell.RunKeepsDirectory | main.py:245-249 | every command leaves the session in a directory of the virtual tree, named by a normalised path |
| Shell.CdSlashGoesHome | main.py:174-176 | `cd /` and a bare `cd` go back to the root from anywhere, then print the hint naming `/` |
| Shell.ReturnKeepsDirectory | main.py:206-207 | a typed `return` prints the unknown-command line and leaves the directory where it was |
| Shell.UnknownVerbChangesNothing | main.py:206-207 | an unknown verb prints one line naming it and changes nothing else |
| Shell.BlankLineDoesNothing | main.py:155-159 | a line of white space is ignored: no output and no change |
| Shell.Session.constructor | main.py:151-152 | the session starts at `/` over the extracted tree, with nothing printed or changed |
| Shell.Session.PrintNames | main.py:239-241 | the loop prints one line per name, in order, after what was already printed |
| Shell.Session.ListFound | main.py:238-243 | the branches of `command_ls` apply the `ls` effect for what was found |
| Shell.Session.CommandLs | main.py:235-243 | `command_ls` applies the `ls` effect of its argument |
| Shell.Session.MoveTo | main.py:247-252 | the branches of `command_cd` move, or print the error, as the `cd` effect says |
| Shell.Session.CommandCd | main.py:245-252 | `command_cd` applies the `cd` effect and keeps the session in a directory of the tree |
| Shell.Session.PrintFile | main.py:256-265 | the branches of `command_cat` apply the `cat` effect for what was found |
| Shell.Session.CommandCat | main.py:254-265 | `command_cat` applies the `cat` effect of its argument |
| Shell.Session.ChangeMode | main.py:270-283 | the `try` block of `command_chmod` applies the `chmod` effect on the real path of an existing target |
| Shell.Session.CommandChmod | main.py:267-283 | `command_chmod` applies the `chmod` effect of its arguments |
| Shell.Session.PrintItem | main.py:290-295 | one walk step prints the directory's line at its level, then its files one level deeper |
| Shell.Session.PrintStep | main.py:289-295 | each step of the walk adds its lines after those of the steps before it |
| Shell.Session.PrintWalk | main.py:289-295 | the loop over the walk prints the lines of every step, in walk order |
| Shell.Session.DrawTree | main.py:287-297 | the branches of `command_tree` print the tree listing of a directory, or the error quoting the argument |
| Shell.Session.CommandTree | main.py:285-297 | `command_tree` applies the `tree` effect of its argument |
| Shell.Session.ProcessLs | main.py:168-173 | the `ls` branch of `process_command`: the listing, then its hint |
| Shell.Session.ProcessCd | main.py:174-179 | the `cd` branch: the move, then the hint naming the directory now current |
| Shell.Session.ProcessCat | main.py:180-186 | the `cat` branch with a file name: the file, then its hint |
| Shell.Session.ProcessChmod | main.py:192-197 | the `chmod` branch with two arguments: the change, then its hint whatever the outcome |
| Shell.Session.ProcessTree | main.py:200-205 | the `tree` branch: the listing, then its hint |
| Shell.Session.Execute | main.py:168-207 | the dispatch applies `Run` of the parsed command and keeps the session valid |
| Shell.Session.ProcessCommand | main.py:154-209 | a typed line applies `Run` of its parse; a line with a word in it is recorded in the history, a blank one is not |

## Left out

- The tkinter window, its widgets, buttons, tooltips, the `insert_command_*` helpers and the clearing of the entry field (main.py:7-143, 209) are user interface.
- `open_virtual_fs` (main.py:145-152): the zip extraction and the two lines reporting `os.getcwd()` and the archive path are file-system I/O. The root `os.path.abspath('virtual_fs')` and the extracted tree are the constructor's parameters `root` and `fs`.
- `close_emulator` and its confirmation dialog (main.py:191, 299-302) are user interface and process teardown. `exit` prints its line and sets `exitRequested`.
- The enabling and disabling of the history widget around the insertion (main.py:164-166) is presentation; only the recorded line is modelled.
- The operating system is a value: `os.listdir` and `os.walk` list a directory's entries in the order of its `entries` sequence, not in an order the operating system chooses.
- Errors while opening or reading a file in `cat`, and errors raised by `os.chmod`, are the parameters `readError` and `chmodError` (`hostError` in `process_command`). Text decoding in `cat` is not modelled: a file's content is its text.
- Permission bits are recorded in `modes` for the real path, but nothing in the model reads them, so a later `cat` or `ls` is not affected by them.
- Symbolic links, devices and any other kind of file than a regular file or a directory are not modelled; `os.path.exists`, `isdir` and `isfile` are looked up in the tree.
- Exceptions from `os.listdir` in `ls` and errors that `os.walk` skips in `tree` (an unreadable directory) are not modelled.
- ParseOctal: accepts only a non-empty string of the digits 0-7. Python's `int(mode, 8)` also accepts a sign, a `0o` prefix, underscores between digits, surrounding white space, and the digits 0-7 of other Unicode scripts (Arabic-Indic `٦٤٤` or fullwidth `６４４` read as 420). Such a mode is refused by the model where the source would accept it. A mode taken from one word never has surrounding white space.
- CommonPath: requires both paths to be absolute or both relative, where Python raises `ValueError` otherwise. In `resolve_real_path` both are absolute.
- NoSiblingOfRoot: requires a root other than `/`. With `/` as the root every absolute path is below it.
- Paths use `/` as the only separator (`os.sep == '/'`), as on POSIX systems.
- Find: compares names exactly, as a case-sensitive POSIX file system does. On a case-insensitive file system (the default on macOS, which the `aqua` theme of main.py:16 targets) `cat file.TXT` could find `file.txt`; the model reports it as not found.
