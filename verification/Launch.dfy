// The launch script and the plan beside it: what `sh` reads in the script,
// and what `env -i` then runs, is the plan's environment and arguments.
module Launching {
  import opened Basics
  import opened Order
  import opened Shells

  datatype SocketPolicy = Open | Mediate | Deny

  // Where the tools are. `miseDir` is the directory `mise` is in, if any.
  datatype Tools = Tools(balerix: string, nono: string, mise: string, miseDir: Option<string>)

  datatype Paths = Paths(nonoHome: string, logs: string, profile: string, workspace: string, launch: string)

  datatype LaunchPlan = LaunchPlan(cwd: string, env: map<string, string>, argv: seq<string>, script: string)

  const SYSTEM_PATH := "/usr/local/bin:/usr/bin:/bin"
  const SHEBANG := "!/bin/sh"
  const NOTE := " generated by balerix" + " \U{2014} safe to run by hand"
  const HEADER := Head(SHEBANG, NOTE, "exec", "env", "-i")

  // Two lines of comment and a command's first words.
  function Head(shebang: string, note: string, a: string, b: string, c: string): string {
    CommentLine(shebang) + CommentLine(note) + a + (" " + b) + (" " + c)
  }

  function CommentLine(s: string): string {
    "#" + s + "\n"
  }

  // `Path::join` with a relative name.
  function JoinPath(dir: string, name: string): string {
    if dir == "" || EndsWith(dir, "/") then dir + name else dir + "/" + name
  }

  // --- The outer PATH -----------------------------------------------------------

  function WithDirectory(path: string, d: string): string {
    if d in Split(path, ':') then path else path + ":" + d
  }

  function OuterPath(miseDir: Option<string>): string {
    match miseDir
    case Some(d) => WithDirectory(SYSTEM_PATH, d)
    case None => SYSTEM_PATH
  }

  // `mise` is looked for in its own directory, after the system's own, once;
  // a directory with a colon in its name cannot be on a PATH at all.
  lemma MiseCanFindItself(d: string)
    ensures OuterPath(None) == "/usr/local/bin:/usr/bin:/bin"
    ensures Split(SYSTEM_PATH, ':') <= Split(OuterPath(Some(d)), ':')
    ensures d in Split(OuterPath(Some(d)), ':') <==> ':' !in d
    ensures ':' !in d ==>
      Split(OuterPath(Some(d)), ':') == Split(SYSTEM_PATH, ':') + (if d in Split(SYSTEM_PATH, ':') then [] else [d])
  {
    DirectoryIsFound(SYSTEM_PATH, d);
  }

  lemma DirectoryIsFound(path: string, d: string)
    ensures Split(path, ':') <= Split(WithDirectory(path, d), ':')
    ensures d in Split(WithDirectory(path, d), ':') <==> ':' !in d
    ensures ':' !in d ==>
      Split(WithDirectory(path, d), ':') == Split(path, ':') + (if d in Split(path, ':') then [] else [d])
  {
    JoinSplit(WithDirectory(path, d), ':');
    if d !in Split(path, ':') {
      SplitAppend(path, d, ':');
      assert path + ":" + d == path + [':'] + d;
      if ':' !in d {
        SplitJoin([d], ':');
        assert Join([d], ':') == d;
        var parts := Split(WithDirectory(path, d), ':');
        assert parts[|parts| - 1] == d;
      }
    }
  }

  // --- What is launched ---------------------------------------------------------

  function WrapCommand(policy: SocketPolicy, balerix: string, argv: seq<string>): seq<string> {
    match policy
    case Deny => [balerix, "sandbox-exec", "--"] + argv
    case _ => argv
  }

  function Supervised(paths: Paths, tools: Tools): seq<string> {
    [tools.balerix, "agent-supervise", "--", tools.nono, "-s", "--log-file", JoinPath(paths.logs, "nono.log"), "run",
      "--profile", paths.profile, "--"]
  }

  function Command(tools: Tools, binary: string, args: seq<string>, resume: bool): seq<string> {
    [tools.mise, "exec", "--", binary] + args + if resume then ["--continue"] else []
  }

  // --- The script's text --------------------------------------------------------

  function Setting(env: map<string, string>, k: string): Piece
    requires k in env
  {
    Piece(k + "=", env[k])
  }

  function Settings(env: map<string, string>, keys: seq<string>): (ps: seq<Piece>)
    requires forall i :: 0 <= i < |keys| ==> keys[i] in env
    ensures |ps| == |keys|
  {
    seq(|keys|, i requires 0 <= i < |keys| => Setting(env, keys[i]))
  }

  function Arguments(argv: seq<string>): (ps: seq<Piece>)
    ensures |ps| == |argv|
  {
    seq(|argv|, i requires 0 <= i < |argv| => Piece("", argv[i]))
  }

  function Script(env: seq<Piece>, argv: seq<Piece>): string {
    HEADER + Spaced(env) + " \\\n " + Spaced(argv) + "\n"
  }

  lemma CommentLineReads(s: string)
    requires '\n' !in s && '\0' !in s
    ensures FeedAll(START, CommentLine(s)) == START
  {
    var comment := START.(mode := Comment);
    FeedAppend(START, "#" + s, "\n");
    FeedAppend(START, "#", s);
    assert "#"[1..] == "" && "\n"[1..] == "";
    assert FeedAll(START, "#") == comment;
    CommentReads(comment, s);
  }

  lemma PlainWordReads(r: Reader, w: string)
    requires AtRest(r) && AllPlain(w) && w != ""
    ensures Read(r, [w], FeedAll(r, " " + w))
  {
    FeedAppend(r, " ", w);
    SpaceReads(r);
    PlainReads(EndWord(r), w);
    assert "" + w == w;
    assert FeedAll(r, " " + w) == EndWord(r).(mode := Word, word := w);
  }

  lemma HeadReads(shebang: string, note: string, a: string, b: string, c: string)
    requires '\n' !in shebang && '\0' !in shebang && '\n' !in note && '\0' !in note
    requires AllPlain(a) && AllPlain(b) && AllPlain(c) && a != "" && b != "" && c != ""
    ensures Read(START, [a, b, c], FeedAll(START, Head(shebang, note, a, b, c)))
  {
    CommentLineReads(shebang);
    CommentLineReads(note);
    var comments := CommentLine(shebang) + CommentLine(note);
    FeedAppend(START, CommentLine(shebang), CommentLine(note));
    FeedAppend(START, comments, a);
    FeedAppend(START, comments + a, " " + b);
    FeedAppend(START, comments + a + (" " + b), " " + c);
    ThreeWordsRead(a, b, c);
  }

  lemma ShebangIsALine()
    ensures '\n' !in SHEBANG && '\0' !in SHEBANG
  {
  }

  lemma NoteIsALine()
    ensures '\n' !in NOTE && '\0' !in NOTE
  {
    var a, b := " generated by balerix", " \U{2014} safe to run by hand";
    assert '\n' !in a && '\0' !in a && '\n' !in b && '\0' !in b;
    assert NOTE == a + b;
  }

  lemma WordsArePlain()
    ensures AllPlain("exec") && AllPlain("env") && AllPlain("-i")
  {
  }

  lemma HeaderReads()
    ensures Read(START, EXEC_ENV, FeedAll(START, HEADER))
  {
    ShebangIsALine();
    NoteIsALine();
    WordsArePlain();
    HeadReads(SHEBANG, NOTE, "exec", "env", "-i");
  }

  lemma ThreeWordsRead(a: string, b: string, c: string)
    requires AllPlain(a) && AllPlain(b) && AllPlain(c) && a != "" && b != "" && c != ""
    ensures Read(START, [a, b, c], FeedAll(FeedAll(FeedAll(START, a), " " + b), " " + c))
  {
    PlainReads(START, a);
    assert "" + a == a;
    var x := START.(mode := Word, word := a);
    PlainWordReads(x, b);
    var y := FeedAll(x, " " + b);
    PlainWordReads(y, c);
    var z := FeedAll(y, " " + c);
    assert Read(START, [a], x);
    ReadOn(START, [a], x, [b], y);
    ReadOn(START, [a] + [b], y, [c], z);
    assert [a] + [b] + [c] == [a, b, c];
  }

  // A space, a continued line and another space.
  lemma ContinuationReads(r: Reader)
    requires AtRest(r)
    ensures Read(r, [], FeedAll(r, " \\\n "))
  {
    var s := " \\\n ";
    assert s == " " + "\\\n" + " ";
    FeedAppend(r, " " + "\\\n", " ");
    FeedAppend(r, " ", "\\\n");
    SpaceReads(r);
    var v := EndWord(r);
    assert "\\\n"[1..] == "\n" && "\n"[1..] == "";
    assert FeedAll(v, "\\\n") == v;
    SpaceReads(v);
    assert EndWord(r).words + [] == EndWord(r).words;
  }

  lemma NewlineReads(r: Reader)
    requires AtRest(r)
    ensures FeedAll(r, "\n") == EndCommand(EndWord(r))
  {
    assert "\n"[1..] == "";
  }

  // The shell reads one command from the script: `exec env -i`, then a word
  // for each setting, then each argument as it was given. (An argument or a
  // value with NUL in it cannot be written in a script, nor given to a
  // process.)
  lemma ScriptReads(env: seq<Piece>, argv: seq<Piece>)
    requires NamesPlain(env) && NamesPlain(argv)
    ensures Commands(Script(env, argv)) ==
      if NoNul(env) && NoNul(argv) then Some([EXEC_ENV + WordsOf(env) + WordsOf(argv)]) else None
  {
    HeaderReads();
    LineReads(HEADER, EXEC_ENV, env, argv);
  }

  lemma LineReads(head: string, words: seq<string>, env: seq<Piece>, argv: seq<Piece>)
    requires NamesPlain(env) && NamesPlain(argv)
    requires Read(START, words, FeedAll(START, head)) && words != []
    ensures Commands(head + Spaced(env) + " \\\n " + Spaced(argv) + "\n") ==
      if NoNul(env) && NoNul(argv) then Some([words + WordsOf(env) + WordsOf(argv)]) else None
  {
    var start := FeedAll(START, head);
    FeedAppend(START, head + Spaced(env) + " \\\n " + Spaced(argv), "\n");
    FeedAppend(START, head + Spaced(env) + " \\\n ", Spaced(argv));
    FeedAppend(START, head + Spaced(env), " \\\n ");
    FeedAppend(START, head, Spaced(env));
    SpacedReads(start, env);
    if NoNul(env) {
      var given := FeedAll(start, Spaced(env));
      var split := FeedAll(given, " \\\n ");
      ContinuationReads(given);
      ReadOn(START, words, start, WordsOf(env), given);
      ReadOn(START, words + WordsOf(env), given, [], split);
      assert words + WordsOf(env) + [] == words + WordsOf(env);
      SpacedReads(split, argv);
      if NoNul(argv) {
        var whole := FeedAll(split, Spaced(argv));
        ReadOn(START, words + WordsOf(env), split, WordsOf(argv), whole);
        NewlineReads(whole);
        EndedCommand(whole, words + WordsOf(env) + WordsOf(argv));
      } else {
        RefusedStays("\n");
      }
    } else {
      RefusedStays(" \\\n ");
      RefusedStays(Spaced(argv));
      RefusedStays("\n");
    }
  }

  lemma EndedCommand(r: Reader, words: seq<string>)
    requires Read(START, words, r) && words != []
    ensures EndCommand(EndWord(r)) == Reader(Between, "", [], [words])
  {
    assert [] + words == words;
  }

  // --- `env -i` -----------------------------------------------------------------

  // What `env -i` makes of its operands: settings as long as they have the
  // form `name=value`, then the utility and its arguments.
  function EnvRuns(words: seq<string>, env: map<string, string>): (map<string, string>, seq<string>) {
    if words == [] then (env, [])
    else match SplitOnce(words[0], '=')
      case Some((name, value)) => EnvRuns(words[1..], env[name := value])
      case None => (env, words)
  }

  lemma SettingsOneByOne(env: map<string, string>, keys: seq<string>)
    requires keys != [] && forall i :: 0 <= i < |keys| ==> keys[i] in env
    ensures WordsOf(Settings(env, keys)) == [keys[0] + "=" + env[keys[0]]] + WordsOf(Settings(env, keys[1..]))
  {
  }

  function Given(env: map<string, string>, keys: seq<string>): map<string, string>
    requires forall i :: 0 <= i < |keys| ==> keys[i] in env
  {
    map k | k in keys :: env[k]
  }

  lemma GivenOneByOne(env: map<string, string>, keys: seq<string>, before: map<string, string>)
    requires keys != [] && forall i :: 0 <= i < |keys| ==> keys[i] in env
    ensures before[keys[0] := env[keys[0]]] + Given(env, keys[1..]) == before + Given(env, keys)
  {
    forall k ensures k in keys <==> k == keys[0] || k in keys[1..] {
      assert keys == [keys[0]] + keys[1..];
    }
  }

  lemma {:induction false} SettingsRun(env: map<string, string>, keys: seq<string>, argv: seq<string>,
                                       before: map<string, string>)
    requires forall i :: 0 <= i < |keys| ==> keys[i] in env && '=' !in keys[i]
    ensures EnvRuns(WordsOf(Settings(env, keys)) + argv, before) == EnvRuns(argv, before + Given(env, keys))
    decreases |keys|
  {
    var words := WordsOf(Settings(env, keys));
    if keys == [] {
      assert words + argv == argv;
      assert before + Given(env, keys) == before;
    } else {
      var first, rest := keys[0] + "=" + env[keys[0]], WordsOf(Settings(env, keys[1..]));
      SplitOnceAt(keys[0], '=', env[keys[0]]);
      SettingsOneByOne(env, keys);
      assert words + argv == [first] + (rest + argv);
      assert (words + argv)[1..] == rest + argv;
      SettingsRun(env, keys[1..], argv, before[keys[0] := env[keys[0]]]);
      GivenOneByOne(env, keys, before);
    }
  }

  lemma {:induction false} EnvRunsShrinks(words: seq<string>, env: map<string, string>)
    ensures |EnvRuns(words, env).1| <= |words|
  {
    if words != [] {
      match SplitOnce(words[0], '=') {
        case Some((name, value)) => EnvRunsShrinks(words[1..], env[name := value]);
        case None =>
      }
    }
  }

  // `env -i` runs the arguments in exactly the given environment, if and only
  // if the first argument has no `=` in it: with one, `env` takes it for a
  // setting and runs something else.
  lemma EnvRunsThePlan(env: map<string, string>, keys: seq<string>, argv: seq<string>)
    requires InOrder(keys, env.Keys) && argv != []
    requires forall k :: k in env ==> '=' !in k
    ensures (forall i :: 0 <= i < |keys| ==> keys[i] in env)
    ensures EnvRuns(WordsOf(Settings(env, keys)) + argv, map[]) == (env, argv) <==> '=' !in argv[0]
  {
    InOrderHas(keys, env.Keys);
    SettingsRun(env, keys, argv, map[]);
    assert Given(env, keys) == env;
    assert map[] + env == env;
    SplitOnceCuts(argv[0], '=');
    match SplitOnce(argv[0], '=') {
      case Some((name, value)) =>
        EnvRunsShrinks(argv[1..], env[name := value]);
        assert '=' in argv[0];
      case None =>
    }
  }

  // --- Rendering ----------------------------------------------------------------

  method FindOuterPath(miseDir: Option<string>) returns (p: string)
    ensures p == OuterPath(miseDir)
  {
    p := SYSTEM_PATH;
    if miseDir.Some? {
      var d := miseDir.value;
      if d !in Split(p, ':') {
        p := p + ":";
        p := p + d;
      }
    }
  }

  function Plan(paths: Paths, tools: Tools, binary: string, args: seq<string>, resume: bool,
                policy: SocketPolicy): LaunchPlan {
    LaunchPlan(
      paths.workspace,
      map["PATH" := OuterPath(tools.miseDir), "HOME" := paths.nonoHome],
      Supervised(paths, tools) + WrapCommand(policy, tools.balerix, Command(tools, binary, args, resume)),
      paths.launch)
  }

  const EXEC_ENV := ["exec", "env", "-i"]

  // What a right script for a plan is: `sh` reads one command in it, the
  // plan's environment and arguments word for word, and `env` runs them so.
  ghost predicate Denotes(script: string, plan: LaunchPlan) {
    Says(Commands(script), EXEC_ENV, plan)
  }

  ghost predicate Says(commands: Option<seq<seq<string>>>, lead: seq<string>, plan: LaunchPlan) {
    exists settings: seq<string> ::
      commands == Some([lead + settings + plan.argv]) && EnvRuns(settings + plan.argv, map[]) == (plan.env, plan.argv)
  }

  lemma SaysOneThing(commands: Option<seq<seq<string>>>, lead: seq<string>, settings: seq<string>, plan: LaunchPlan)
    requires commands.Some? ==> commands == Some([lead + settings + plan.argv])
    ensures Says(commands, lead, plan) <==>
      commands.Some? && EnvRuns(settings + plan.argv, map[]) == (plan.env, plan.argv)
  {
    forall ws: seq<string> | commands == Some([lead + ws + plan.argv]) ensures ws == settings {
      SameMiddle(lead, ws, settings, plan.argv);
    }
  }

  predicate Sayable(plan: LaunchPlan) {
    && (forall k :: k in plan.env ==> '\0' !in plan.env[k])
    && (forall i :: 0 <= i < |plan.argv| ==> '\0' !in plan.argv[i])
  }

  lemma TheScriptReadsAsThePlan(plan: LaunchPlan, keys: seq<string>)
    requires InOrder(keys, plan.env.Keys) && forall i :: 0 <= i < |keys| ==> keys[i] in plan.env
    requires forall k :: k in plan.env ==> AllPlain(k + "=")
    ensures var settings := Settings(plan.env, keys);
      Commands(Script(settings, Arguments(plan.argv))) ==
        if Sayable(plan) then Some([EXEC_ENV + WordsOf(settings) + plan.argv]) else None
  {
    var settings, arguments := Settings(plan.env, keys), Arguments(plan.argv);
    assert NamesPlain(arguments);
    forall i | 0 <= i < |settings| ensures AllPlain(settings[i].name) {
      assert settings[i].name == keys[i] + "=";
    }
    ScriptReads(settings, arguments);
    ArgumentsAreTheWords(plan.argv);
    SayableSettings(plan, keys);
  }

  // The script says what the plan says, for every path, argument and policy,
  // exactly when the plan can be said at all and the supervisor's own path
  // has no `=` in it.
  lemma TheScriptDenotesThePlan(plan: LaunchPlan, keys: seq<string>)
    requires InOrder(keys, plan.env.Keys) && forall i :: 0 <= i < |keys| ==> keys[i] in plan.env
    requires plan.argv != [] && forall k :: k in plan.env ==> AllPlain(k + "=") && '=' !in k
    ensures Denotes(Script(Settings(plan.env, keys), Arguments(plan.argv)), plan)
      <==> Sayable(plan) && '=' !in plan.argv[0]
  {
    TheScriptReadsAsThePlan(plan, keys);
    EnvRunsThePlan(plan.env, keys, plan.argv);
    var settings := WordsOf(Settings(plan.env, keys));
    var commands := Commands(Script(Settings(plan.env, keys), Arguments(plan.argv)));
    SaysOneThing(commands, EXEC_ENV, settings, plan);
  }

  lemma ArgumentsAreTheWords(argv: seq<string>)
    ensures WordsOf(Arguments(argv)) == argv
    ensures NoNul(Arguments(argv)) <==> forall i :: 0 <= i < |argv| ==> '\0' !in argv[i]
  {
    var ps := Arguments(argv);
    forall i | 0 <= i < |argv| ensures WordsOf(ps)[i] == argv[i] && ps[i].text == argv[i] {
      assert "" + argv[i] == argv[i];
    }
    if !NoNul(ps) {
      var i :| 0 <= i < |ps| && '\0' in ps[i].text;
      assert '\0' in argv[i];
    }
  }

  lemma SayableSettings(plan: LaunchPlan, keys: seq<string>)
    requires InOrder(keys, plan.env.Keys) && forall i :: 0 <= i < |keys| ==> keys[i] in plan.env
    ensures NoNul(Settings(plan.env, keys)) <==> forall k :: k in plan.env ==> '\0' !in plan.env[k]
  {
    var ps := Settings(plan.env, keys);
    InOrderHas(keys, plan.env.Keys);
    if NoNul(ps) {
      forall k | k in plan.env ensures '\0' !in plan.env[k] {
        var i :| 0 <= i < |keys| && keys[i] == k;
        assert ps[i].text == plan.env[k];
      }
    }
  }

  lemma SameMiddle(a: seq<string>, x: seq<string>, y: seq<string>, b: seq<string>)
    requires a + x + b == a + y + b
    ensures x == y
  {
    assert |x| == |y|;
    assert x == (a + x + b)[|a|..|a| + |x|];
    assert y == (a + y + b)[|a|..|a| + |y|];
  }

  // A plan's script: the settings in the order of their names.
  ghost function ScriptOf(plan: LaunchPlan): string {
    InOrderHas(Sorted(plan.env.Keys), plan.env.Keys);
    Script(Settings(plan.env, Sorted(plan.env.Keys)), Arguments(plan.argv))
  }

  method Assemble(paths: Paths, tools: Tools, binary: string, args: seq<string>, resume: bool, policy: SocketPolicy)
    returns (plan: LaunchPlan)
    ensures plan == Plan(paths, tools, binary, args, resume, policy)
  {
    var path := FindOuterPath(tools.miseDir);
    var env := map["PATH" := path, "HOME" := paths.nonoHome];
    var argv := Supervised(paths, tools);
    var command := [tools.mise, "exec", "--", binary];
    command := command + args;
    if resume {
      command := command + ["--continue"];
    }
    argv := argv + WrapCommand(policy, tools.balerix, command);
    plan := LaunchPlan(paths.workspace, env, argv, paths.launch);
  }

  lemma ThePlanIsWellNamed(paths: Paths, tools: Tools, binary: string, args: seq<string>, resume: bool,
                           policy: SocketPolicy)
    ensures var plan := Plan(paths, tools, binary, args, resume, policy);
      && plan.argv != [] && plan.argv[0] == tools.balerix
      && forall k :: k in plan.env ==> AllPlain(k + "=") && '=' !in k
  {
    assert AllPlain("PATH=") && AllPlain("HOME=") && "PATH" + "=" == "PATH=" && "HOME" + "=" == "HOME=";
  }

  // --- What the agent is run as ---------------------------------------------------

  // What a program that is given a command after `--` runs.
  function Runs(argv: seq<string>): Option<seq<string>> {
    if argv == [] then None else AfterDashes(argv[1..])
  }

  function AfterDashes(words: seq<string>): Option<seq<string>> {
    if words == [] then None else if words[0] == "--" then Some(words[1..]) else AfterDashes(words[1..])
  }

  lemma {:induction false} DashesAt(words: seq<string>, n: nat)
    requires n < |words| && words[n] == "--" && forall i :: 0 <= i < n ==> words[i] != "--"
    ensures AfterDashes(words) == Some(words[n + 1..])
  {
    if n > 0 {
      DashesAt(words[1..], n - 1);
      assert words[1..][n..] == words[n + 1..];
    }
  }

  lemma WrapperRuns(head: seq<string>, command: seq<string>)
    requires head != [] && forall i :: 1 <= i < |head| ==> head[i] != "--"
    ensures Runs(head + ["--"] + command) == Some(command)
  {
    var argv := head + ["--"] + command;
    var words := argv[1..];
    assert words[|head| - 1] == "--";
    forall i | 0 <= i < |head| - 1 ensures words[i] != "--" {
      assert words[i] == head[i + 1];
    }
    DashesAt(words, |head| - 1);
    assert words[|head|..] == command;
  }

  // The sandbox as its own options ask for it: quiet or not, its log, what to
  // do, the profile it applies, and the command it runs after `--`.
  datatype NonoCall = NonoCall(
    quiet: bool,
    log: Option<string>,
    verb: Option<string>,
    profile: Option<string>,
    command: seq<string>)

  // Its options, read one by one; an option with a value takes the next word,
  // whatever that is.
  function ReadNono(words: seq<string>, call: NonoCall): Option<NonoCall>
    decreases |words|
  {
    if words == [] then None
    else if words[0] == "--" then Some(call.(command := words[1..]))
    else if words[0] == "-s" then ReadNono(words[1..], call.(quiet := true))
    else if words[0] == "--log-file" && |words| > 1 then ReadNono(words[2..], call.(log := Some(words[1])))
    else if words[0] == "--profile" && |words| > 1 then ReadNono(words[2..], call.(profile := Some(words[1])))
    else if call.verb.None? then ReadNono(words[1..], call.(verb := Some(words[0])))
    else None
  }

  const NO_OPTIONS := NonoCall(false, None, None, None, [])

  // What a launch is for, told of the plan itself: where it runs and is written,
  // the two variables it starts with, and the programs that run one another,
  // the sandbox with its log and its profile.
  ghost predicate Launches(plan: LaunchPlan, paths: Paths, tools: Tools, agent: seq<string>, policy: SocketPolicy) {
    && plan.cwd == paths.workspace && plan.script == paths.launch
    && plan.env == map["PATH" := OuterPath(tools.miseDir), "HOME" := paths.nonoHome]
    && |plan.argv| > 4 && plan.argv[..4] == [tools.balerix, "agent-supervise", "--", tools.nono]
    && ReadNono(plan.argv[4..], NO_OPTIONS) == Some(NonoCall(
      true, Some(JoinPath(paths.logs, "nono.log")), Some("run"), Some(paths.profile),
      (if policy == Deny then [tools.balerix, "sandbox-exec", "--"] else []) + [tools.mise, "exec", "--"] + agent))
  }

  lemma NonoIsReadAsAsked(log: string, profile: string, command: seq<string>)
    ensures ReadNono(["-s", "--log-file", log, "run", "--profile", profile, "--"] + command, NO_OPTIONS)
      == Some(NonoCall(true, Some(log), Some("run"), Some(profile), command))
  {
    var w0 := ["-s", "--log-file", log, "run", "--profile", profile, "--"] + command;
    var w1 := ["--log-file", log, "run", "--profile", profile, "--"] + command;
    var w2 := ["run", "--profile", profile, "--"] + command;
    var w3 := ["--profile", profile, "--"] + command;
    var w4 := ["--"] + command;
    assert w0[1..] == w1 && w1[2..] == w2 && w2[1..] == w3 && w3[2..] == w4 && w4[1..] == command;
    var c1 := NO_OPTIONS.(quiet := true);
    var c2 := c1.(log := Some(log));
    var c3 := c2.(verb := Some("run"));
    var c4 := c3.(profile := Some(profile));
    assert ReadNono(w4, c4) == Some(c4.(command := command));
    assert ReadNono(w3, c3) == ReadNono(w4, c4);
    assert ReadNono(w2, c2) == ReadNono(w3, c3);
    assert ReadNono(w1, c1) == ReadNono(w2, c2);
    assert ReadNono(w0, NO_OPTIONS) == ReadNono(w1, c1);
  }

  lemma ThePlanLaunches(paths: Paths, tools: Tools, binary: string, args: seq<string>, resume: bool,
                        policy: SocketPolicy)
    ensures Launches(Plan(paths, tools, binary, args, resume, policy), paths, tools,
      [binary] + args + if resume then ["--continue"] else [], policy)
  {
    var agent := [binary] + args + if resume then ["--continue"] else [];
    var plan := Plan(paths, tools, binary, args, resume, policy);
    var log := JoinPath(paths.logs, "nono.log");
    var command := (if policy == Deny then [tools.balerix, "sandbox-exec", "--"] else []) + [tools.mise, "exec", "--"] + agent;
    NonoIsReadAsAsked(log, paths.profile, command);
    assert Command(tools, binary, args, resume) == [tools.mise, "exec", "--"] + agent;
    assert WrapCommand(policy, tools.balerix, Command(tools, binary, args, resume)) == command;
    var options := ["-s", "--log-file", log, "run", "--profile", paths.profile, "--"];
    assert Supervised(paths, tools) == [tools.balerix, "agent-supervise", "--", tools.nono] + options;
    FourFirst(tools.balerix, "agent-supervise", "--", tools.nono, options, command);
  }

  lemma FourFirst(a: string, b: string, c: string, d: string, rest: seq<string>, command: seq<string>)
    ensures ([a, b, c, d] + rest + command)[..4] == [a, b, c, d]
    ensures ([a, b, c, d] + rest + command)[4..] == rest + command
  {
  }

  // A log file's path is the directory's with the name beneath it.
  lemma JoinPathJoins(dir: string, name: string)
    requires dir != ""
    ensures JoinPath(dir, name) == (if dir[|dir| - 1] == '/' then dir else dir + "/") + name
  {
    assert EndsWith(dir, "/") <==> dir[|dir| - 1] == '/';
  }

  // The supervisor runs the sandbox, the sandbox runs the tool manager, under
  // `Deny` from within the wrapper that refuses sockets, and the tool manager
  // runs the agent's program with exactly its arguments, `--` among them or
  // not.
  lemma TheAgentGetsItsArguments(paths: Paths, tools: Tools, binary: string, args: seq<string>, resume: bool,
                                 policy: SocketPolicy, root: string)
    requires paths.profile == JoinPath(root, "nono-profile.json")
    ensures var sandboxed := Runs(Plan(paths, tools, binary, args, resume, policy).argv);
      && sandboxed.Some? && sandboxed.value != [] && sandboxed.value[0] == tools.nono
      && var inside := Runs(sandboxed.value);
      && inside.Some? && inside.value != []
      && (policy == Deny ==> inside.value[0] == tools.balerix && Runs(inside.value).Some?)
      && var managed := if policy == Deny then Runs(inside.value).value else inside.value;
      && managed != [] && managed[0] == tools.mise
      && Runs(managed) == Some([binary] + args + if resume then ["--continue"] else [])
  {
    var command := Command(tools, binary, args, resume);
    var wrapped := WrapCommand(policy, tools.balerix, command);
    var log, profile := JoinPath(paths.logs, "nono.log"), paths.profile;
    var nono := [tools.nono, "-s", "--log-file", log, "run", "--profile", profile];
    LongerThanDashes(paths.logs, "nono.log");
    LongerThanDashes(root, "nono-profile.json");
    WrapperRuns([tools.balerix, "agent-supervise"], nono + ["--"] + wrapped);
    WrapperRuns(nono, wrapped);
    WrapperRuns([tools.balerix, "sandbox-exec"], command);
    var agent := [binary] + args + if resume then ["--continue"] else [];
    WrapperRuns([tools.mise, "exec"], agent);
    assert Supervised(paths, tools) + wrapped
      == [tools.balerix, "agent-supervise"] + ["--"] + (nono + ["--"] + wrapped);
    assert command == [tools.mise, "exec"] + ["--"] + agent;
    assert [tools.balerix, "sandbox-exec", "--"] + command == [tools.balerix, "sandbox-exec"] + ["--"] + command;
  }

  lemma LongerThanDashes(dir: string, name: string)
    requires |name| > 2
    ensures JoinPath(dir, name) != "--"
  {
    assert |JoinPath(dir, name)| > 2;
  }

  // Renders the plan's script by appending each setting and each argument,
  // quoted.
  method RenderLaunch(paths: Paths, tools: Tools, binary: string, args: seq<string>, resume: bool, policy: SocketPolicy)
    returns (script: string, plan: LaunchPlan)
    ensures plan == Plan(paths, tools, binary, args, resume, policy)
    ensures Launches(plan, paths, tools, [binary] + args + (if resume then ["--continue"] else []), policy)
    ensures script == ScriptOf(plan)
    ensures Denotes(script, plan) <==> Sayable(plan) && '=' !in tools.balerix
  {
    plan := Assemble(paths, tools, binary, args, resume, policy);
    ThePlanIsWellNamed(paths, tools, binary, args, resume, policy);
    ThePlanLaunches(paths, tools, binary, args, resume, policy);
    script := RenderPlan(plan);
  }

  method RenderPlan(plan: LaunchPlan) returns (script: string)
    requires plan.argv != [] && forall k :: k in plan.env ==> AllPlain(k + "=") && '=' !in k
    ensures script == ScriptOf(plan)
    ensures Denotes(script, plan) <==> Sayable(plan) && '=' !in plan.argv[0]
  {
    var keys := KeysInOrder(plan.env.Keys);
    script := WriteScript(plan.env, keys, plan.argv);
    TheOrderIsUnique(keys, Sorted(plan.env.Keys), plan.env.Keys);
    TheScriptDenotesThePlan(plan, keys);
  }

  lemma SettingStep(script: string, head: string, ps: seq<Piece>, i: nat, key: string, value: string)
    requires i < |ps| && ps[i].name == key + "=" && value == Quote(ps[i].text)
    requires script == head + Spaced(ps[..i])
    ensures script + (" " + key + "=" + value) == head + Spaced(ps[..i + 1])
  {
    SpacedStep(head, ps, i);
    assert " " + key + "=" + value == " " + ps[i].name + value;
  }

  lemma ArgumentStep(script: string, head: string, ps: seq<Piece>, i: nat, value: string)
    requires i < |ps| && ps[i].name == "" && value == Quote(ps[i].text)
    requires script == head + Spaced(ps[..i])
    ensures script + " " + value == head + Spaced(ps[..i + 1])
  {
    SpacedStep(head, ps, i);
    assert " " + "" + value == " " + value;
    Assoc(script, " ", value);
  }

  method WriteScript(env: map<string, string>, keys: seq<string>, argv: seq<string>) returns (script: string)
    requires InOrder(keys, env.Keys)
    ensures forall i :: 0 <= i < |keys| ==> keys[i] in env
    ensures script == Script(Settings(env, keys), Arguments(argv))
  {
    InOrderHas(keys, env.Keys);
    ghost var settings, arguments := Settings(env, keys), Arguments(argv);
    script := HEADER;
    for i := 0 to |keys|
      invariant script == HEADER + Spaced(settings[..i])
    {
      var value := ShQuote(env[keys[i]]);
      SettingStep(script, HEADER, settings, i, keys[i], value);
      script := script + (" " + keys[i] + "=" + value);
    }
    assert settings[..|keys|] == settings;
    script := script + " \\\n ";
    ghost var head := script;
    for i := 0 to |argv|
      invariant script == head + Spaced(arguments[..i])
    {
      var value := ShQuote(argv[i]);
      ArgumentStep(script, head, arguments, i, value);
      script := script + " ";
      script := script + value;
    }
    assert arguments[..|argv|] == arguments;
    script := script + "\n";
  }

  lemma SpacedStep(head: string, ps: seq<Piece>, i: nat)
    requires i < |ps|
    ensures head + Spaced(ps[..i + 1]) == head + Spaced(ps[..i]) + (" " + ps[i].name + Quote(ps[i].text))
  {
    assert ps[..i + 1][..i] == ps[..i];
  }
}
