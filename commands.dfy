/**
 * How `process_command` reads a command line (main.py:154-209): the line is
 * cut into words, the first word picks the command and the rest give its
 * arguments.
 */
module Commands {
  import opened Tokens
  import opened Sequences

  datatype Command =
    | Blank                                  // nothing but white space: ignored
    | Ls(path: string)
    | Cd(path: string)
    | Cat(file: string)
    | CatUsage                               // `cat` without a file name
    | Exit
    | Chmod(file: string, mode: string)
    | ChmodUsage                             // `chmod` without exactly two arguments
    | Tree(path: string)
    | Unknown(verb: string)

  /**
   * `command_line.strip().split()` and the dispatch on its first word:
   * `ls` and `tree` take only the second word, defaulting to `.`; `cd` and
   * `cat` take all remaining words joined by single spaces, `cd` defaulting
   * to `/`; `chmod` needs exactly two arguments.
   */
  function Parse(line: string): (c: Command)
    ensures c == Blank <==> Words(line) == []
    ensures c.Unknown? ==> IsWord(c.verb) && c.verb !in Verbs()
  {
    Dispatch(Words(line))
  }

  /** The dispatch on the first word of a line already cut into words. */
  function Dispatch(ws: seq<string>): (c: Command)
    requires forall i | 0 <= i < |ws| :: IsWord(ws[i])
    ensures c == Blank <==> ws == []
    ensures c.Unknown? ==> IsWord(c.verb) && c.verb !in Verbs()
  {
    if ws == [] then Blank
    else
      var verb, args := ws[0], ws[1..];
      if verb == "ls" then Ls(if args != [] then args[0] else ".")
      else if verb == "cd" then Cd(if args != [] then Unwords(args) else "/")
      else if verb == "cat" then (if args != [] then Cat(Unwords(args)) else CatUsage)
      else if verb == "exit" then Exit
      else if verb == "chmod" then (if |args| == 2 then Chmod(args[0], args[1]) else ChmodUsage)
      else if verb == "tree" then Tree(if args != [] then args[0] else ".")
      else Unknown(verb)
  }

  /** The words the shell recognises as commands. */
  function Verbs(): set<string>
  {
    {"ls", "cd", "cat", "exit", "chmod", "tree"}
  }

  /** A string that is words separated by single spaces, as `' '.join` produces. */
  predicate IsPhrase(p: string)
  {
    Words(p) != [] && Unwords(Words(p)) == p
  }

  /** The commands a line can express, with arguments the line can carry. */
  predicate Expressible(c: Command)
  {
    match c
    case Blank => true
    case Ls(p) => IsWord(p)
    case Cd(p) => IsPhrase(p)
    case Cat(f) => IsPhrase(f)
    case CatUsage => true
    case Exit => true
    case Chmod(f, m) => IsWord(f) && IsWord(m)
    case ChmodUsage => true
    case Tree(p) => IsWord(p)
    case Unknown(v) => IsWord(v) && v !in Verbs()
  }

  /** A command line that asks for `c`. */
  function Line(c: Command): string
  {
    match c
    case Blank => ""
    case Ls(p) => "ls" + " " + p
    case Cd(p) => "cd" + " " + p
    case Cat(f) => "cat" + " " + f
    case CatUsage => "cat"
    case Exit => "exit"
    case Chmod(f, m) => "chmod" + " " + f + " " + m
    case ChmodUsage => "chmod"
    case Tree(p) => "tree" + " " + p
    case Unknown(v) => v
  }

  /** A single word splits into itself. */
  lemma WordsSingle(w: string)
    requires IsWord(w)
    ensures Words(w) == [w]
  {
    WordsOfWord(w, "");
    assert w + "" == w;
  }

  /** A word, a space and the rest split into the word and the words of the rest. */
  lemma WordsCons(w: string, rest: string)
    requires IsWord(w)
    ensures Words(w + " " + rest) == [w] + Words(rest)
  {
    assert w + " " + rest == w + (" " + rest);
    WordsOfWord(w, " " + rest);
    assert (" " + rest)[1..] == rest;
  }

  /** A non-empty run of lower-case Latin letters is a word. */
  lemma LowercaseWord(w: string)
    requires w != [] && forall i | 0 <= i < |w| :: 'a' <= w[i] <= 'z'
    ensures IsWord(w)
  {
  }

  lemma VerbIsWord(v: string)
    requires v in Verbs()
    ensures IsWord(v)
  {
    LowercaseWord(v);
  }

  /** Every command a line can express is read back from its line. */
  lemma ParseLine(c: Command)
    requires Expressible(c)
    ensures Parse(Line(c)) == c
  {
    match c {
      case Blank =>
      case Ls(p) =>
        WordsVerbWord("ls", p);
        DispatchListing(p);
      case Cd(p) =>
        WordsVerbPhrase("cd", p);
        DispatchPhrase(Words(p));
      case Cat(f) =>
        WordsVerbPhrase("cat", f);
        DispatchPhrase(Words(f));
      case CatUsage => WordsVerb("cat");
      case Exit => WordsVerb("exit");
      case Chmod(f, m) => ParseChmod(f, m);
      case ChmodUsage => WordsVerb("chmod");
      case Tree(p) =>
        WordsVerbWord("tree", p);
        DispatchListing(p);
      case Unknown(v) => WordsSingle(v);
    }
  }

  lemma WordsVerb(v: string)
    requires v in Verbs()
    ensures Words(v) == [v]
  {
    VerbIsWord(v);
    WordsSingle(v);
  }

  lemma WordsVerbWord(v: string, p: string)
    requires v in Verbs() && IsWord(p)
    ensures Words(v + " " + p) == [v, p]
  {
    VerbIsWord(v);
    WordsCons(v, p);
    WordsSingle(p);
  }

  lemma WordsVerbPhrase(v: string, p: string)
    requires v in Verbs() && IsPhrase(p)
    ensures Words(v + " " + p) == [v] + Words(p)
  {
    VerbIsWord(v);
    WordsCons(v, p);
  }

  lemma DispatchListing(p: string)
    requires IsWord(p)
    ensures Dispatch(["ls", p]) == Ls(p)
    ensures Dispatch(["tree", p]) == Tree(p)
  {
    assert ["ls", p][1..] == [p];
    assert ["tree", p][1..] == [p];
  }

  lemma DispatchPhrase(ws: seq<string>)
    requires ws != [] && forall i | 0 <= i < |ws| :: IsWord(ws[i])
    ensures Dispatch(["cd"] + ws) == Cd(Unwords(ws))
    ensures Dispatch(["cat"] + ws) == Cat(Unwords(ws))
  {
    assert (["cd"] + ws)[1..] == ws;
    assert (["cat"] + ws)[1..] == ws;
  }

  lemma ParseChmod(f: string, m: string)
    requires IsWord(f) && IsWord(m)
    ensures Parse(Line(Chmod(f, m))) == Chmod(f, m)
  {
    WordsChmod(f, m);
    DispatchChmod(f, m);
  }

  lemma WordsChmod(f: string, m: string)
    requires IsWord(f) && IsWord(m)
    ensures Words(Line(Chmod(f, m))) == ["chmod", f, m]
  {
    VerbIsWord("chmod");
    WordsCons("chmod", f + " " + m);
    WordsCons(f, m);
    WordsSingle(m);
    assert Line(Chmod(f, m)) == "chmod" + " " + (f + " " + m);
  }

  lemma DispatchChmod(f: string, m: string)
    requires IsWord(f) && IsWord(m)
    ensures Dispatch(["chmod", f, m]) == Chmod(f, m)
  {
    var ws := ["chmod", f, m];
    assert ws[0] == "chmod" && ws[1..] == [f, m];
  }

  /**
   * `cd` and `cat` take all their words joined by single spaces, however the
   * line spaces them out.
   */
  lemma CdJoinsWords(line: string, ws: seq<string>)
    requires ws != []
    ensures Words(line) == ["cd"] + ws ==> Parse(line) == Cd(Unwords(ws))
    ensures Words(line) == ["cat"] + ws ==> Parse(line) == Cat(Unwords(ws))
  {
    var all := Words(line);
    if all == ["cd"] + ws || all == ["cat"] + ws {
      forall i | 0 <= i < |ws| ensures IsWord(ws[i]) {
        assert ws[i] == all[i + 1];
      }
      DispatchPhrase(ws);
    }
  }

  /** `ls` and `tree` look only at their first argument, however many follow. */
  lemma ListingsTakeFirstArgument(line: string, args: seq<string>)
    requires args != []
    ensures Words(line) == ["ls"] + args ==> Parse(line) == Ls(args[0])
    ensures Words(line) == ["tree"] + args ==> Parse(line) == Tree(args[0])
  {
    var all := Words(line);
    if all == ["ls"] + args || all == ["tree"] + args {
      assert all[1..] == args;
    }
  }

  /** Without an argument `cd` goes to `/` and `ls` and `tree` list `.`. */
  lemma DefaultArguments(line: string)
    ensures Words(line) == ["cd"] ==> Parse(line) == Cd("/")
    ensures Words(line) == ["ls"] ==> Parse(line) == Ls(".")
    ensures Words(line) == ["tree"] ==> Parse(line) == Tree(".")
  {
    DispatchDefaults();
  }

  /**
   * `cat` without a file and `chmod` with any number of arguments other than
   * two only print their usage.
   */
  lemma UsageWithoutArguments(line: string)
    ensures Words(line) == ["cat"] ==> Parse(line) == CatUsage
    ensures Words(line) != [] && Words(line)[0] == "chmod" && |Words(line)| != 3 ==> Parse(line) == ChmodUsage
  {
    DispatchUsage();
  }

  /** `chmod` with exactly two arguments takes the file, then the mode. */
  lemma ChmodTakesTwoArguments(line: string, f: string, m: string)
    ensures Words(line) == ["chmod", f, m] ==> Parse(line) == Chmod(f, m)
  {
    var ws := Words(line);
    if ws == ["chmod", f, m] {
      assert ws[1] == f && ws[2] == m;
      DispatchChmod(f, m);
    }
  }

  /** A typed `return` is not a command of the shell: only its button is, and it types `cd /`. */
  lemma ReturnIsUnknown()
    ensures Parse("return") == Unknown("return")
  {
    LowercaseWord("return");
    WordsSingle("return");
    DispatchReturn();
  }

  lemma DispatchUnknown(ws: seq<string>)
    requires ws != [] && forall i | 0 <= i < |ws| :: IsWord(ws[i])
    requires ws[0] !in Verbs()
    ensures Dispatch(ws) == Unknown(ws[0])
  {
    assert ws[0] != "ls" && ws[0] != "cd" && ws[0] != "cat";
    assert ws[0] != "exit" && ws[0] != "chmod" && ws[0] != "tree";
  }

  lemma DispatchDefaults()
    ensures Dispatch(["cd"]) == Cd("/")
    ensures Dispatch(["ls"]) == Ls(".")
    ensures Dispatch(["tree"]) == Tree(".")
  {
    VerbIsWord("cd");
    VerbIsWord("ls");
    VerbIsWord("tree");
  }

  lemma DispatchUsage()
    ensures Dispatch(["cat"]) == CatUsage
    ensures Dispatch(["chmod"]) == ChmodUsage
  {
    VerbIsWord("cat");
    VerbIsWord("chmod");
  }

  lemma DispatchReturn()
    ensures Dispatch(["return"]) == Unknown("return")
  {
    LowercaseWord("return");
  }
}
