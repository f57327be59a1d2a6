/**
 * The command-line parser of the `koharu` tool: one pass over the arguments, left to right, in
 * which `--keep`, `--model` and `--tag` take the next argument as their value when there is a
 * non-empty one, other arguments starting with `-` are switches (unknown ones ignored), and the
 * remaining words fill the command, the type of `generate` or `new`, and the backup file.
 */
module Args {
  import opened Wrappers
  import opened Text

  /** The content kinds `generate` accepts as its type. */
  const GENERATE_TYPES: seq<string> := ["lqips", "similarities", "summaries", "all"]
  /** The content kinds `new` accepts as its type. */
  const NEW_TYPES: seq<string> := ["post", "friend"]

  /** The on/off options; `--help` and `-h` both name `Help`. */
  datatype Switch = Full | Latest | List | DryRun | Force | Help | Check | SkipBackup | Rebase | Clean

  /** The switch an argument names, if any. */
  function SwitchNamed(name: string): Option<Switch> {
    if name == "--full" then Some(Full)
    else if name == "--latest" then Some(Latest)
    else if name == "--list" then Some(List)
    else if name == "--dry-run" then Some(DryRun)
    else if name == "--force" then Some(Force)
    else if name == "--help" || name == "-h" then Some(Help)
    else if name == "--check" then Some(Check)
    else if name == "--skip-backup" then Some(SkipBackup)
    else if name == "--rebase" then Some(Rebase)
    else if name == "--clean" then Some(Clean)
    else None
  }

  /** The long name of a switch. */
  function SwitchName(s: Switch): string {
    match s
    case Full => "--full"
    case Latest => "--latest"
    case List => "--list"
    case DryRun => "--dry-run"
    case Force => "--force"
    case Help => "--help"
    case Check => "--check"
    case SkipBackup => "--skip-backup"
    case Rebase => "--rebase"
    case Clean => "--clean"
  }

  /**
   * What the command line asks for. The boolean options (`full`, `latest`, `list`, `dryRun`,
   * `force`, `help`, `check`, `skipBackup`, `rebase`, `clean`) are the switches in `switches`;
   * absent values are None (`null`), absent words "".
   */
  datatype ParsedArgs = ParsedArgs(
    command: string,
    switches: set<Switch>,
    keep: Option<int>,
    backupFile: string,
    generateType: Option<string>,
    model: Option<string>,
    tag: Option<string>,
    newType: Option<string>)

  /** The record before any argument is read: every switch off, no values, no words. */
  const DEFAULT_ARGS: ParsedArgs := ParsedArgs("", {}, None, "", None, None, None, None)

  /** The options that take the following argument as their value. */
  predicate TakesValue(name: string) {
    name == "--keep" || name == "--model" || name == "--tag"
  }

  /** Whether an argument starts with `-`. */
  predicate Dashed(a: string) {
    a != "" && a[0] == '-'
  }

  /** Starting with `-` is `Dashed`, and an argument starting with `--` starts with `-`. */
  lemma DashedIsPrefix(a: string)
    ensures StartsWith(a, "-") <==> Dashed(a)
    ensures StartsWith(a, "--") ==> Dashed(a)
  {
    if StartsWith(a, "--") {
      assert a[0] == a[..2][0] == '-';
    }
    if Dashed(a) {
      assert a[..1] == [a[0]];
    }
  }

  /** How the parser reads the arguments: a switch, an option with its value, or a word. */
  datatype Token = Flag(name: string) | Valued(name: string, value: string) | Word(word: string)

  /** The arguments a token was read from. */
  function Spelling(t: Token): seq<string> {
    match t
    case Flag(n) => [n]
    case Valued(n, v) => [n, v]
    case Word(w) => [w]
  }

  /** The arguments a sequence of tokens was read from, in order. */
  function SpellingOf(ts: seq<Token>): seq<string> {
    if ts == [] then [] else Spelling(ts[0]) + SpellingOf(ts[1..])
  }

  /**
   * The token read at position `i`: a value-taking option followed by a non-empty argument
   * takes it, whatever it looks like; otherwise an argument starting with `-` is a switch and
   * any other one a word.
   */
  function TokenAt(argv: seq<string>, i: nat): Token
    requires i < |argv|
  {
    if TakesValue(argv[i]) && i + 1 < |argv| && argv[i + 1] != "" then Valued(argv[i], argv[i + 1])
    else if Dashed(argv[i]) then Flag(argv[i])
    else Word(argv[i])
  }

  /** The token read at `i` is spelled by the arguments from `i` on. */
  lemma TokenAtSpelling(argv: seq<string>, i: nat)
    requires i < |argv|
    ensures i + |Spelling(TokenAt(argv, i))| <= |argv|
    ensures Spelling(TokenAt(argv, i)) == argv[i..i + |Spelling(TokenAt(argv, i))|]
  {
  }

  /** The tokens of `argv` from position `i`, each read where the previous one ends. */
  function TokensFrom(argv: seq<string>, i: nat): seq<Token>
    decreases |argv| - i
  {
    if i >= |argv| then []
    else [TokenAt(argv, i)] + TokensFrom(argv, i + |Spelling(TokenAt(argv, i))|)
  }

  /** A token on its way into the record: the whole token, then, for `--keep`, its value alone. */
  datatype Step = Read(t: Token) | ReadKeep(value: string)

  /** What a step does to the record. */
  function ApplyStep(args: ParsedArgs, s: Step): ParsedArgs
    decreases s.Read?
  {
    match s
    case Read(t) =>
      (match t
      case Flag(n) =>
        var named := SwitchNamed(n);
        if named.Some? then args.(switches := args.switches + {named.value}) else args
      case Valued(n, v) =>
        if n == "--keep" then ApplyStep(args, ReadKeep(v))
        else if n == "--model" then args.(model := Some(v))
        else args.(tag := Some(v))
      case Word(w) =>
        if args.command == "" then args.(command := w)
        else if args.command == "generate" && args.generateType.None? then
          if w in GENERATE_TYPES then args.(generateType := Some(w)) else args
        else if args.command == "new" && args.newType.None? then
          if w in NEW_TYPES then args.(newType := Some(w)) else args
        else args.(backupFile := w))
    case ReadKeep(v) =>
      var k := ParseDecimal(v);
      if k.Some? && k.value > 0 then args.(keep := k) else args
  }

  /** What one token does to the record. */
  function Apply(args: ParsedArgs, t: Token): ParsedArgs {
    ApplyStep(args, Read(t))
  }

  /**
   * `--keep` with a value sets `keep` only when the value reads as a positive integer, and
   * changes nothing else.
   */
  lemma ApplyKeep(args: ParsedArgs, v: string)
    ensures var k := ParseDecimal(v);
      Apply(args, Valued("--keep", v)) == if k.Some? && k.value > 0 then args.(keep := k) else args
  {
    assert Apply(args, Valued("--keep", v)) == ApplyStep(args, ReadKeep(v));
  }

  /**
   * An option with a value touches only the field it names: `--tag` and `--model` store their
   * value as it is, `--keep` changes at most `keep`.
   */
  lemma ApplyValued(args: ParsedArgs, n: string, v: string)
    ensures var r := Apply(args, Valued(n, v));
      && r.command == args.command && r.switches == args.switches && r.backupFile == args.backupFile
      && (n == "--tag" ==> r == args.(tag := Some(v)))
      && (n == "--model" ==> r == args.(model := Some(v)))
      && (n == "--keep" ==> r.(keep := args.keep) == args)
  {
    if n == "--keep" {
      ApplyKeep(args, v);
    }
  }

  /** The record after reading the tokens `ts`, starting from `args`. */
  function Fold(args: ParsedArgs, ts: seq<Token>): ParsedArgs
    decreases |ts|
  {
    if ts == [] then args else Fold(Apply(args, ts[0]), ts[1..])
  }

  /** The record `parseArgs(argv)` returns. */
  function Parse(argv: seq<string>): ParsedArgs {
    Fold(DEFAULT_ARGS, TokensFrom(argv, 0))
  }

  /** `parseArgs(argv)`: one pass over the arguments, stepping over each value an option takes. */
  method ParseArgs(argv: seq<string>) returns (args: ParsedArgs)
    ensures args == Parse(argv)
    ensures argv == [] ==> args == DEFAULT_ARGS
  {
    args := DEFAULT_ARGS;
    var i := 0;
    ghost var goal := Parse(argv);
    while i < |argv|
      invariant 0 <= i <= |argv|
      invariant Fold(args, TokensFrom(argv, i)) == goal
      decreases |argv| - i
    {
      FoldStep(args, argv, i);
      TokenAtSpelling(argv, i);
      args, i := ReadArgument(argv, i, args);
    }
  }

  /**
   * One turn of the loop of `parseArgs`: reads the argument at `i` (and the value after it,
   * for an option that takes one) into `args`, and returns where the next turn starts.
   */
  method ReadArgument(argv: seq<string>, i: nat, args: ParsedArgs) returns (next: ParsedArgs, j: nat)
    requires i < |argv|
    ensures next == Apply(args, TokenAt(argv, i))
    ensures j == i + |Spelling(TokenAt(argv, i))|
  {
    next := args;
    j := i;
    var arg := argv[j];
    if arg == "--full" {
      next := next.(switches := next.switches + {Full});
    } else if arg == "--latest" {
      next := next.(switches := next.switches + {Latest});
    } else if arg == "--list" {
      next := next.(switches := next.switches + {List});
    } else if arg == "--dry-run" {
      next := next.(switches := next.switches + {DryRun});
    } else if arg == "--force" {
      next := next.(switches := next.switches + {Force});
    } else if arg == "--help" || arg == "-h" {
      next := next.(switches := next.switches + {Help});
    } else if arg == "--keep" && j + 1 < |argv| && argv[j + 1] != "" {
      ApplyKeep(args, argv[j + 1]);
      var n := ParseDecimal(argv[j + 1]);
      if n.Some? && n.value > 0 {
        next := next.(keep := n);
      }
      j := j + 1;
    } else if arg == "--model" && j + 1 < |argv| && argv[j + 1] != "" {
      next := next.(model := Some(argv[j + 1]));
      j := j + 1;
    } else if arg == "--check" {
      next := next.(switches := next.switches + {Check});
    } else if arg == "--skip-backup" {
      next := next.(switches := next.switches + {SkipBackup});
    } else if arg == "--tag" && j + 1 < |argv| && argv[j + 1] != "" {
      next := next.(tag := Some(argv[j + 1]));
      j := j + 1;
    } else if arg == "--rebase" {
      next := next.(switches := next.switches + {Rebase});
    } else if arg == "--clean" {
      next := next.(switches := next.switches + {Clean});
    } else if !StartsWith(arg, "--") && !StartsWith(arg, "-") {
      DashedIsPrefix(arg);
      if next.command == "" {
        next := next.(command := arg);
      } else if next.command == "generate" && next.generateType.None? {
        if arg in GENERATE_TYPES {
          next := next.(generateType := Some(arg));
        }
      } else if next.command == "new" && next.newType.None? {
        if arg in NEW_TYPES {
          next := next.(newType := Some(arg));
        }
      } else {
        next := next.(backupFile := arg);
      }
    }
    j := j + 1;
  }

  /** Reading one more token: the rest of the fold goes on from where that token ends. */
  lemma FoldStep(args: ParsedArgs, argv: seq<string>, i: nat)
    requires i < |argv|
    ensures Fold(args, TokensFrom(argv, i))
      == Fold(Apply(args, TokenAt(argv, i)), TokensFrom(argv, i + |Spelling(TokenAt(argv, i))|))
  {
    var ts := TokensFrom(argv, i);
    assert ts[0] == TokenAt(argv, i);
    assert ts[1..] == TokensFrom(argv, i + |Spelling(TokenAt(argv, i))|);
  }

  /** Reading never loses or reorders an argument: the tokens spell out exactly the arguments read. */
  lemma {:induction false} TokensSpellArguments(argv: seq<string>, i: nat)
    requires i <= |argv|
    ensures SpellingOf(TokensFrom(argv, i)) == argv[i..]
    decreases |argv| - i
  {
    if i < |argv| {
      var t, j := TokensStep(argv, i);
      TokensSpellArguments(argv, j);
      SpellGlue(argv, i, j, t, TokensFrom(argv, j));
    }
  }

  /** The first token from `i`, and the position after it, which lies further on. */
  lemma TokensStep(argv: seq<string>, i: nat) returns (t: Token, j: nat)
    requires i < |argv|
    ensures i < j <= |argv|
    ensures TokensFrom(argv, i) == [t] + TokensFrom(argv, j)
    ensures Spelling(t) == argv[i..j]
  {
    t := TokenAt(argv, i);
    j := i + |Spelling(t)|;
    TokenAtSpelling(argv, i);
    TokensUnfold(argv, i);
  }

  /** A token spelling `argv[i..j]` followed by tokens spelling `argv[j..]` spell `argv[i..]`. */
  lemma SpellGlue(argv: seq<string>, i: nat, j: nat, t: Token, rest: seq<Token>)
    requires i <= j <= |argv|
    requires Spelling(t) == argv[i..j] && SpellingOf(rest) == argv[j..]
    ensures SpellingOf([t] + rest) == argv[i..]
  {
    SpellingCons(t, rest);
    SliceSplit(argv, i, j);
  }

  /** The tokens from `i` are the token at `i` followed by the tokens from where it ends. */
  lemma TokensUnfold(argv: seq<string>, i: nat)
    requires i < |argv|
    ensures TokensFrom(argv, i) == [TokenAt(argv, i)] + TokensFrom(argv, i + |Spelling(TokenAt(argv, i))|)
  {
  }

  /** A suffix is the slice up to any later point followed by the suffix from there. */
  lemma SliceSplit(argv: seq<string>, i: nat, j: nat)
    requires i <= j <= |argv|
    ensures argv[i..] == argv[i..j] + argv[j..]
  {
  }

  /** Spelling a token and then the rest is spelling the whole. */
  lemma SpellingCons(t: Token, ts: seq<Token>)
    ensures SpellingOf([t] + ts) == Spelling(t) + SpellingOf(ts)
  {
    assert ([t] + ts)[1..] == ts;
  }

  /** Reading a token and then the rest is reading the whole. */
  lemma FoldCons(args: ParsedArgs, t: Token, ts: seq<Token>)
    ensures Fold(args, [t] + ts) == Fold(Apply(args, t), ts)
  {
    assert ([t] + ts)[1..] == ts;
  }

  /** Whether a token is a flag naming switch `s`. */
  predicate Turns(t: Token, s: Switch) {
    t.Flag? && SwitchNamed(t.name) == Some(s)
  }

  /** Every switch has its long name, and `-h` is the only other name: switch names do not clash. */
  lemma SwitchNames(s: Switch, name: string)
    ensures SwitchNamed(SwitchName(s)) == Some(s)
    ensures SwitchNamed(name) == Some(s) <==> name == SwitchName(s) || (s == Help && name == "-h")
  {
  }

  /** One token turns a switch on exactly when it names it; no token turns one off. */
  lemma ApplySwitch(args: ParsedArgs, t: Token, s: Switch)
    ensures s in Apply(args, t).switches <==> s in args.switches || Turns(t, s)
  {
    if t.Valued? {
      ApplyValued(args, t.name, t.value);
    }
  }

  /** A switch is on after reading `ts` exactly when it was on before or one of them names it. */
  lemma {:induction false} FoldSwitch(args: ParsedArgs, ts: seq<Token>, s: Switch)
    ensures s in Fold(args, ts).switches <==> s in args.switches || exists k :: 0 <= k < |ts| && Turns(ts[k], s)
    decreases |ts|
  {
    if ts != [] {
      FoldSwitch(Apply(args, ts[0]), ts[1..], s);
      ApplySwitch(args, ts[0], s);
      if exists k :: 0 <= k < |ts[1..]| && Turns(ts[1..][k], s) {
        var k :| 0 <= k < |ts[1..]| && Turns(ts[1..][k], s);
        assert Turns(ts[k + 1], s);
      }
      if exists k :: 0 <= k < |ts| && Turns(ts[k], s) {
        var k :| 0 <= k < |ts| && Turns(ts[k], s);
        if k > 0 {
          assert Turns(ts[1..][k - 1], s);
        }
      }
    }
  }

  /**
   * A switch is on exactly when an argument read as a flag names it; in particular `--help`
   * and `-h` both turn on help.
   */
  lemma SwitchOnIffNamed(argv: seq<string>, s: Switch)
    ensures var ts := TokensFrom(argv, 0);
      s in Parse(argv).switches <==> exists k :: 0 <= k < |ts| && ts[k].Flag? && SwitchNamed(ts[k].name) == Some(s)
  {
    FoldSwitch(DEFAULT_ARGS, TokensFrom(argv, 0), s);
  }

  /** One token sets an unset command exactly when it is a word; a set command stays. */
  lemma ApplyCommand(args: ParsedArgs, t: Token)
    ensures Apply(args, t).command
      == if args.command != "" then args.command else if t.Word? then t.word else ""
  {
    if t.Valued? {
      ApplyValued(args, t.name, t.value);
    }
  }

  /** The words among the tokens, in order. */
  function Words(ts: seq<Token>): seq<string> {
    if ts == [] then []
    else (if ts[0].Word? then [ts[0].word] else []) + Words(ts[1..])
  }

  /** The first non-empty word, or "" when there is none. */
  function FirstNonEmpty(ws: seq<string>): string {
    if ws == [] then "" else if ws[0] != "" then ws[0] else FirstNonEmpty(ws[1..])
  }

  /** A command, once set, stays; an unset one becomes the first non-empty word read. */
  lemma {:induction false} FoldCommand(args: ParsedArgs, ts: seq<Token>)
    ensures Fold(args, ts).command == if args.command != "" then args.command else FirstNonEmpty(Words(ts))
    decreases |ts|
  {
    if ts != [] {
      FoldCommand(Apply(args, ts[0]), ts[1..]);
      ApplyCommand(args, ts[0]);
      if ts[0].Word? {
        assert Words(ts) == [ts[0].word] + Words(ts[1..]);
      } else {
        assert Words(ts) == Words(ts[1..]);
      }
    }
  }

  /** The command is the first non-empty word of the command line; an empty word never becomes it. */
  lemma CommandIsFirstWord(argv: seq<string>)
    ensures Parse(argv).command == FirstNonEmpty(Words(TokensFrom(argv, 0)))
  {
    FoldCommand(DEFAULT_ARGS, TokensFrom(argv, 0));
  }

  /**
   * A value-taking option followed by a non-empty argument takes it as its value, even one that
   * starts with `--`, and reading resumes after it.
   */
  lemma ValueIsTaken(argv: seq<string>, i: nat)
    requires i + 1 < |argv| && TakesValue(argv[i]) && argv[i + 1] != ""
    ensures TokensFrom(argv, i) == [Valued(argv[i], argv[i + 1])] + TokensFrom(argv, i + 2)
  {
  }

  /**
   * Wherever reading reaches `--tag` or `--model` with a non-empty argument after it, that
   * argument becomes the option's value verbatim, nothing else changes, and reading goes on
   * after the value.
   */
  lemma TagAndModelVerbatim(args: ParsedArgs, argv: seq<string>, i: nat)
    requires i + 1 < |argv| && (argv[i] == "--tag" || argv[i] == "--model") && argv[i + 1] != ""
    ensures Fold(args, TokensFrom(argv, i)) == Fold(
      if argv[i] == "--tag" then args.(tag := Some(argv[i + 1])) else args.(model := Some(argv[i + 1])),
      TokensFrom(argv, i + 2))
  {
    ValueIsTaken(argv, i);
    FoldCons(args, Valued(argv[i], argv[i + 1]), TokensFrom(argv, i + 2));
    ApplyValued(args, argv[i], argv[i + 1]);
  }

  /** An argument starting with `-` that the parser does not know is ignored. */
  lemma UnknownSwitchIgnored(args: ParsedArgs, name: string)
    requires Dashed(name) && SwitchNamed(name).None?
    ensures Apply(args, Flag(name)) == args
  {
  }

  /**
   * Wherever reading reaches a word after `generate` while no type is set, the word becomes the
   * type only when it is one of the generate types; any other word is dropped (it does not become
   * the backup file), and reading goes on after it.
   */
  lemma GenerateTypeFiltered(args: ParsedArgs, argv: seq<string>, i: nat)
    requires i < |argv| && !Dashed(argv[i])
    requires args.command == "generate" && args.generateType.None?
    ensures Fold(args, TokensFrom(argv, i)) == Fold(
      if argv[i] in GENERATE_TYPES then args.(generateType := Some(argv[i])) else args,
      TokensFrom(argv, i + 1))
  {
    WordStep(args, argv, i);
  }

  /**
   * Wherever reading reaches a word after `new` while no type is set, the word becomes the type
   * only when it is one of the new types, and is dropped otherwise.
   */
  lemma NewTypeFiltered(args: ParsedArgs, argv: seq<string>, i: nat)
    requires i < |argv| && !Dashed(argv[i])
    requires args.command == "new" && args.newType.None?
    ensures Fold(args, TokensFrom(argv, i)) == Fold(
      if argv[i] in NEW_TYPES then args.(newType := Some(argv[i])) else args,
      TokensFrom(argv, i + 1))
  {
    WordStep(args, argv, i);
  }

  /** An argument that does not start with `-` is read as a word of its own. */
  lemma WordStep(args: ParsedArgs, argv: seq<string>, i: nat)
    requires i < |argv| && !Dashed(argv[i])
    ensures Fold(args, TokensFrom(argv, i)) == Fold(Apply(args, Word(argv[i])), TokensFrom(argv, i + 1))
  {
    FoldStep(args, argv, i);
  }

  /** Once the command and any type are settled, every further word replaces the backup file. */
  lemma LaterWordsReplaceBackupFile(args: ParsedArgs, w: string)
    requires args.command != ""
    requires args.command == "generate" ==> args.generateType.Some?
    requires args.command == "new" ==> args.newType.Some?
    ensures Apply(args, Word(w)) == args.(backupFile := w)
  {
  }
}
