/** The script BootstrapScript returns performs the steps of the bootstrap, in their order: a shell that runs its text
    brings the host to where the steps bring it. */
module ScriptSteps {
  import opened Text
  import opened Shell
  import opened Script
  import opened ScriptReader
  import opened ScriptLines
  import opened ScriptRun
  import Bootstrap

  type Stage = Bootstrap.Stage

  // ---- Running line by line ----

  function RunLines(c: Config, valid: bool, p: Progress, ls: seq<string>): Progress
    decreases ls
  {
    if ls == [] || !p.Going? then p else RunLines(c, valid, RunItem(c, valid, p.state, Command(ls[0])), ls[1..])
  }

  lemma {:induction false} RunLinesAppend(c: Config, valid: bool, p: Progress, a: seq<string>, b: seq<string>)
    ensures RunLines(c, valid, p, a + b) == RunLines(c, valid, RunLines(c, valid, p, a), b)
    decreases a
  {
    if a == [] || !p.Going? {
      assert a == [] ==> a + b == b;
    } else {
      assert (a + b)[1..] == a[1..] + b;
      RunLinesAppend(c, valid, RunItem(c, valid, p.state, Command(a[0])), a[1..], b);
    }
  }

  lemma {:induction false} RunHeardLines(c: Config, valid: bool, p: Progress, ls: seq<string>, tail: seq<Piece>)
    ensures RunItems(c, valid, p, AllHeard(Lines(ls) + tail)) ==
            RunItems(c, valid, RunLines(c, valid, p, ls), AllHeard(tail))
    decreases ls
  {
    if ls == [] {
      assert Lines(ls) + tail == tail;
    } else {
      assert Lines(ls) + tail == [Line(ls[0])] + (Lines(ls[1..]) + tail);
      var items := AllHeard(Lines(ls) + tail);
      assert (Lines(ls) + tail)[1..] == Lines(ls[1..]) + tail;
      assert items[0] == Command(ls[0]) && items[1..] == AllHeard(Lines(ls[1..]) + tail);
      if p.Going? {
        RunHeardLines(c, valid, RunItem(c, valid, p.state, Command(ls[0])), ls[1..], tail);
      }
    }
  }

  /** A run of lines without fields. */
  function RunFixed(c: Config, p: Progress, lines: seq<FixedLine>): Progress
    decreases lines
  {
    if lines == [] || !p.Going? then p else RunFixed(c, RunWords(c, p.state, WordTexts(lines[0].words)), lines[1..])
  }

  lemma LineRuns(c: Config, valid: bool, s: State, l: FixedLine)
    requires AllWhole(l.words)
    ensures RunItem(c, valid, s, Command(LineText(l))) == RunWords(c, s, WordTexts(l.words))
  {
    LineIsOrdinary(l);
    SplitText(l);
    assert GUARD_LINE[|"if ! CADDY_OUTPUT"|] == '=';
  }

  lemma {:induction false} FixedRun(c: Config, valid: bool, p: Progress, lines: seq<FixedLine>)
    requires WholeLines(lines)
    ensures RunLines(c, valid, p, Texts(lines)) == RunFixed(c, p, lines)
    decreases lines
  {
    if lines != [] && p.Going? {
      assert lines[0] in lines;
      LineRuns(c, valid, p.state, lines[0]);
      FixedRun(c, valid, RunWords(c, p.state, WordTexts(lines[0].words)), lines[1..]);
    }
  }

  lemma First(c: Config, s: State, l: FixedLine, rest: seq<FixedLine>)
    ensures RunFixed(c, Going(s), [l] + rest) == RunFixed(c, RunWords(c, s, WordTexts(l.words)), rest)
  {
    assert ([l] + rest)[1..] == rest;
  }

  lemma EmptyRuns(c: Config, s: State)
    ensures RunWords(c, s, WordTexts([])) == Going(s)
  {
  }

  // ---- The assignments ----

  lemma {:induction false} GapRuns(c: Config, valid: bool, s: State, n: nat)
    ensures RunLines(c, valid, Going(s), seq(n, _ => "")) == Going(s)
    decreases n
  {
    if n > 0 {
      EmptyLine();
      var ls := seq(n, _ => "");
      assert ls[0] == "" && ls[1..] == seq(n - 1, _ => "");
      assert SplitLine("") == Some([]);
      GapRuns(c, valid, s, n - 1);
    }
  }

  lemma AssignmentRuns(c: Config, valid: bool, s: State, a: Assignment, rest: seq<string>)
    requires IsName(a.name) && '\0' !in a.value && !s.skipping
    ensures RunLines(c, valid, Going(s), [AssignmentLine(a)] + rest) ==
            RunLines(c, valid, Going(s.(made := s.made + [(a.name, a.value)])), rest)
  {
    AssignmentLineAssigns(a);
    assert ([AssignmentLine(a)] + rest)[1..] == rest;
  }

  lemma AssignmentAndGap(c: Config, valid: bool, s: State, a: Assignment, more: seq<string>)
    requires IsName(a.name) && '\0' !in a.value && !s.skipping
    ensures RunLines(c, valid, Going(s), [AssignmentLine(a)] + (seq(a.gap, _ => "") + more)) ==
            RunLines(c, valid, Going(s.(made := s.made + [(a.name, a.value)])), more)
  {
    var gap := seq(a.gap, _ => "");
    var s' := s.(made := s.made + [(a.name, a.value)]);
    AssignmentRuns(c, valid, s, a, gap + more);
    RunLinesAppend(c, valid, Going(s'), gap, more);
    GapRuns(c, valid, s', a.gap);
  }

  lemma PairsCons(made: seq<(string, string)>, block: seq<Assignment>)
    requires block != []
    ensures made + Pairs(block) == made + [(block[0].name, block[0].value)] + Pairs(block[1..])
  {
  }

  lemma {:induction false} BlockRuns(c: Config, valid: bool, s: State, block: seq<Assignment>)
    requires NulFree(block) && !s.skipping && forall a :: a in block ==> IsName(a.name)
    ensures RunLines(c, valid, Going(s), BlockLines(block)) == Going(s.(made := s.made + Pairs(block)))
    decreases block
  {
    if block == [] {
      assert s.made + Pairs(block) == s.made;
    } else {
      AssignmentAndGap(c, valid, s, block[0], BlockLines(block[1..]));
      BlockRuns(c, valid, s.(made := s.made + [(block[0].name, block[0].value)]), block[1..]);
      PairsCons(s.made, block);
    }
  }

  predicate Has(env: map<string, string>, name: string, value: string) {
    name in env && env[name] == value
  }

  /** The variables of a run hold what the steps work with. */
  predicate Bound(s: State, c: Config, stage: Stage) {
    var env := Variables(s);
    && !s.skipping
    && Has(env, SERVICE_USER, c.user) && Has(env, DATA_ROOT, c.dataRoot)
    && Has(env, SERVER_SOURCE, stage.server) && Has(env, CONTEXTQ_SOURCE, stage.contextq)
    && Has(env, SERVER_BIN, c.serverBin) && Has(env, CONTEXTQ_BIN, c.contextqBin)
    && Has(env, UNIT_PATH, c.unitPath) && Has(env, CADDYFILE, c.caddyfile)
    && Has(env, SNIPPET_DIR, c.snippetDir) && Has(env, SNIPPET_PATH, c.snippetPath)
  }

  function StageOf(f: Fields): Stage {
    Bootstrap.Stage(f.serverSource, f.contextqSource)
  }

  lemma FieldsBind(s: State, f: Fields, parents: set<string>)
    requires !s.skipping
    requires forall i :: 0 <= i < |NAMES| ==> Has(Variables(s), NAMES[i], Values(f)[i])
    ensures Bound(s, ConfigOf(f, parents), StageOf(f))
  {
    var v, env := Values(f), Variables(s);
    assert Has(env, NAMES[0], v[0]) && Has(env, NAMES[1], v[1]) && Has(env, NAMES[2], v[2]) && Has(env, NAMES[3], v[3]);
    assert Has(env, NAMES[4], v[4]) && Has(env, NAMES[5], v[5]) && Has(env, NAMES[6], v[6]) && Has(env, NAMES[7], v[7]);
    assert Has(env, NAMES[8], v[8]) && Has(env, NAMES[9], v[9]);
  }

  lemma HeaderBinds(s: State, f: Fields)
    requires s.made == Pairs(Header(f))
    ensures forall i :: 0 <= i < |NAMES| ==> Has(Variables(s), NAMES[i], Values(f)[i])
    ensures f.stageDir.Some? ==> Has(Variables(s), STAGE_DIR, f.stageDir.value)
  {
    var p, n := Performed(f), |Header(f)|;
    PerformedAt(f);
    PairsAt(Header(f));
    VariablesSet(f);
    assert p[..n] == s.made;
    assert Environment(p) == Environment(s.made)[IMPORT_LINE := f.importLine];
    OthersDiffer(0);
    forall i | 0 <= i < |NAMES| ensures Has(Variables(s), NAMES[i], Values(f)[i]) {
      OthersDiffer(i);
    }
  }

  // ---- Tokens ----

  function ArgTokens(args: seq<string>): seq<Token> {
    seq(|args|, i requires 0 <= i < |args| => Arg(args[i]))
  }

  lemma ArgsOfTokens(args: seq<string>)
    ensures AllArgs(ArgTokens(args)) && Args(ArgTokens(args)) == args
  {
  }

  lemma {:induction false} NoOr(tokens: seq<Token>, i: nat)
    requires i <= |tokens| && (forall j :: 0 <= j < i ==> tokens[j] != Or) && (i < |tokens| ==> tokens[i] == Or)
    ensures OrAt(tokens) == i
    decreases i
  {
    if i > 0 {
      NoOr(tokens[1..], i - 1);
    }
  }

  lemma PerformSingle(c: Config, tokens: seq<Token>, input: Option<string>, h: Host)
    requires Or !in tokens
    ensures Perform(c, tokens, input, h) == OneCommand(c, tokens, input, h)
  {
    NoOr(tokens, |tokens|);
  }

  lemma PerformOr(c: Config, a: seq<Token>, b: seq<Token>, h: Host)
    requires Or !in a && Or !in b
    ensures Perform(c, a + ([Or] + b), None, h) ==
            match OneCommand(c, a, None, h)
            case Done(h') => Done(h')
            case Failed => OneCommand(c, b, None, h)
            case Unknown => Unknown
  {
    var t := a + ([Or] + b);
    NoOr(t, |a|);
    assert t[..|a|] == a && t[|a| + 1..] == b;
  }

  lemma SimpleRuns(c: Config, args: seq<string>, input: Option<string>, h: Host)
    ensures OneCommand(c, ArgTokens(args), input, h) == Simple(c, args, h)
  {
    ArgsOfTokens(args);
    assert StripQuiet(ArgTokens(args)) == ArgTokens(args);
  }

  lemma QuietStripped(t: seq<Token>)
    ensures StripQuiet(t + [Quiet]) == StripQuiet(t)
  {
    assert (t + [Quiet])[..|t|] == t;
  }

  lemma QuietRuns(c: Config, args: seq<string>, input: Option<string>, h: Host)
    ensures OneCommand(c, ArgTokens(args) + [Quiet], input, h) == Simple(c, args, h)
    ensures OneCommand(c, ArgTokens(args) + [Quiet] + [Quiet], input, h) == Simple(c, args, h)
  {
    ArgsOfTokens(args);
    QuietStripped(ArgTokens(args));
    QuietStripped(ArgTokens(args) + [Quiet]);
    assert StripQuiet(ArgTokens(args)) == ArgTokens(args);
  }

  lemma CommandRuns(c: Config, s: State, words: seq<Spelling>)
    requires AllWhole(words) && words != [] && words[0].Lit? && Runs(words[0].text) && !s.skipping
    ensures RunWords(c, s, WordTexts(words)) == Continue(s, Perform(c, MeantAll(Variables(s), words), None, s.host))
  {
    assert WordTexts(words)[0] == words[0].text;
    TokensMeant(Variables(s), words);
  }

  /** The first word of a line that is carried out on the host. */
  predicate Runs(first: string) {
    !Passed(first) && first != "set" && first != "[" && first != "trap" && first != "exit" && first != "printf"
  }

  lemma CommandsRun()
    ensures Runs("getent") && Runs("id") && Runs("install")
    ensures Runs("mv") && Runs("grep") && Runs("systemctl")
  {
  }

  lemma Operators()
    ensures IsOperator(NO_OUTPUT) && OperatorToken(NO_OUTPUT) == Quiet
    ensures IsOperator(ERRORS_TOO) && OperatorToken(ERRORS_TOO) == Quiet
    ensures IsOperator(NO_ERRORS) && OperatorToken(NO_ERRORS) == Quiet
    ensures IsOperator("||") && OperatorToken("||") == Or
    ensures IsOperator(">>") && OperatorToken(">>") == AppendTo
    ensures IsOperator(">") && OperatorToken(">") == To
  {
  }

  // ---- What each line comes to ----

  /** A line of words does what a step does. */
  predicate Does(c: Config, stage: Stage, s: State, words: seq<Spelling>, step: Bootstrap.Step) {
    RunWords(c, s, WordTexts(words)) == Going(s.(host := Bootstrap.Do(c, stage, step, s.host)))
  }

  lemma NoSuffix(t: string)
    ensures t + NONE == t
  {
  }

  lemma GroupTokens(env: map<string, string>, user: string)
    requires Has(env, SERVICE_USER, user)
    ensures MeantAll(env, GROUP) ==
            (ArgTokens(["getent", "group", user]) + [Quiet] + [Quiet]) + ([Or] + ArgTokens(["groupadd", "--system", user]))
  {
    Operators();
    NoSuffix(user);
    assert !IsOperator("getent") && !IsOperator("group") && !IsOperator("groupadd") && !IsOperator("--system");
  }

  lemma GroupCommands(c: Config, stage: Stage, h: Host)
    ensures Simple(c, ["getent", "group", c.user], h) == if c.user in h.groups then Done(h) else Failed
    ensures Simple(c, ["groupadd", "--system", c.user], h) == Done(Bootstrap.Do(c, stage, Bootstrap.EnsureGroup, h))
    ensures c.user in h.groups ==> Bootstrap.Do(c, stage, Bootstrap.EnsureGroup, h) == h
  {
    if c.user in h.groups {
      assert h.groups + {c.user} == h.groups;
    }
  }

  lemma GroupDoes(c: Config, stage: Stage, s: State)
    requires !s.skipping && Has(Variables(s), SERVICE_USER, c.user)
    ensures Does(c, stage, s, GROUP, Bootstrap.EnsureGroup)
  {
    var user, h := c.user, s.host;
    var look, make := ["getent", "group", user], ["groupadd", "--system", user];
    assert AllWhole(GROUP) by { AccountsAreWhole(); }
    assert Runs("getent") by { CommandsRun(); }
    GroupTokens(Variables(s), user);
    GroupCommands(c, stage, h);
    PerformOr(c, ArgTokens(look) + [Quiet] + [Quiet], ArgTokens(make), h);
    QuietRuns(c, look, None, h);
    SimpleRuns(c, make, None, h);
    PerformDoes(c, stage, s, GROUP, Bootstrap.EnsureGroup);
  }

  lemma MeantAppend(env: map<string, string>, a: seq<Spelling>, b: seq<Spelling>)
    ensures MeantAll(env, a + b) == MeantAll(env, a) + MeantAll(env, b)
  {
  }

  const LOOK: seq<Spelling> := [Lit("id"), Var(SERVICE_USER, NONE), Lit(">/dev/null"), Lit("2>&1"), Lit("||")]
  const MAKE: seq<Spelling> :=
    [Lit("useradd"), Lit("--system"), Lit("--gid"), Var(SERVICE_USER, NONE), Lit("--home-dir"), Var(DATA_ROOT, NONE)]
  const ACCOUNT: seq<Spelling> :=
    [Lit("--no-create-home"), Lit("--shell"), Lit("/usr/sbin/nologin"), Var(SERVICE_USER, NONE)]

  lemma LookTokens(env: map<string, string>, user: string)
    requires Has(env, SERVICE_USER, user)
    ensures MeantAll(env, LOOK) == [Arg("id"), Arg(user), Quiet, Quiet, Or]
  {
    Operators();
    NoSuffix(user);
    assert !IsOperator("id");
  }

  lemma MakeTokens(env: map<string, string>, user: string, home: string)
    requires Has(env, SERVICE_USER, user) && Has(env, DATA_ROOT, home)
    ensures MeantAll(env, MAKE) == ArgTokens(["useradd", "--system", "--gid", user, "--home-dir", home])
  {
    NoSuffix(user);
    NoSuffix(home);
    assert !IsOperator("useradd") && !IsOperator("--system") && !IsOperator("--gid") && !IsOperator("--home-dir");
  }

  lemma AccountTokens(env: map<string, string>, user: string)
    requires Has(env, SERVICE_USER, user)
    ensures MeantAll(env, ACCOUNT) == ArgTokens(["--no-create-home", "--shell", "/usr/sbin/nologin", user])
  {
    NoSuffix(user);
    assert !IsOperator("--no-create-home") && !IsOperator("--shell") && !IsOperator("/usr/sbin/nologin");
  }

  lemma UserTokens(env: map<string, string>, c: Config)
    requires Has(env, SERVICE_USER, c.user) && Has(env, DATA_ROOT, c.dataRoot)
    ensures MeantAll(env, USER) ==
            (ArgTokens(["id", c.user]) + [Quiet] + [Quiet]) + ([Or] + ArgTokens(Useradd(c)))
  {
    LookTokens(env, c.user);
    MakeTokens(env, c.user, c.dataRoot);
    AccountTokens(env, c.user);
    MeantAppend(env, LOOK + MAKE, ACCOUNT);
    MeantAppend(env, LOOK, MAKE);
    assert USER == LOOK + MAKE + ACCOUNT;
  }

  function Useradd(c: Config): seq<string> {
    ["useradd", "--system", "--gid", c.user, "--home-dir", c.dataRoot, "--no-create-home", "--shell",
     "/usr/sbin/nologin", c.user]
  }

  lemma UserCommands(c: Config, stage: Stage, h: Host)
    requires c.user in h.groups
    ensures Simple(c, ["id", c.user], h) == if c.user in h.users then Done(h) else Failed
    ensures Simple(c, Useradd(c), h) == Done(Bootstrap.Do(c, stage, Bootstrap.EnsureUser, h))
    ensures c.user in h.users ==> Bootstrap.Do(c, stage, Bootstrap.EnsureUser, h) == h
  {
    if c.user in h.users {
      assert h.users + {c.user} == h.users;
    }
  }

  lemma UserDoes(c: Config, stage: Stage, s: State)
    requires !s.skipping && Has(Variables(s), SERVICE_USER, c.user) && Has(Variables(s), DATA_ROOT, c.dataRoot)
    requires c.user in s.host.groups
    ensures Does(c, stage, s, USER, Bootstrap.EnsureUser)
  {
    var user, h := c.user, s.host;
    var look, make := ["id", user], Useradd(c);
    assert AllWhole(USER) by { AccountsAreWhole(); }
    assert Runs("id") by { CommandsRun(); }
    UserTokens(Variables(s), c);
    UserCommands(c, stage, h);
    PerformOr(c, ArgTokens(look) + [Quiet] + [Quiet], ArgTokens(make), h);
    QuietRuns(c, look, None, h);
    SimpleRuns(c, make, None, h);
    PerformDoes(c, stage, s, USER, Bootstrap.EnsureUser);
  }

  lemma DataTokens(env: map<string, string>, user: string, home: string)
    requires Has(env, SERVICE_USER, user) && Has(env, DATA_ROOT, home)
    ensures MeantAll(env, DATA) == ArgTokens(["install", "-d", "-m", "0750", "-o", user, "-g", user, home])
  {
    NoSuffix(user);
    NoSuffix(home);
    assert !IsOperator("install") && !IsOperator("-d") && !IsOperator("-m") && !IsOperator("0750");
    assert !IsOperator("-o") && !IsOperator("-g");
  }

  /** A line that is one command, all of its words arguments. */
  lemma LineIsSimple(c: Config, s: State, words: seq<Spelling>, args: seq<string>)
    requires AllWhole(words) && words != [] && words[0].Lit? && Runs(words[0].text) && !s.skipping
    requires MeantAll(Variables(s), words) == ArgTokens(args)
    ensures RunWords(c, s, WordTexts(words)) == Continue(s, Simple(c, args, s.host))
  {
    CommandRuns(c, s, words);
    PerformSingle(c, ArgTokens(args), None, s.host);
    SimpleRuns(c, args, None, s.host);
  }

  /** Such a line does what a step does, if its command does. */
  lemma SimpleDoes(c: Config, stage: Stage, s: State, words: seq<Spelling>, args: seq<string>, step: Bootstrap.Step)
    requires AllWhole(words) && words != [] && words[0].Lit? && Runs(words[0].text) && !s.skipping
    requires MeantAll(Variables(s), words) == ArgTokens(args)
    requires Simple(c, args, s.host) == Done(Bootstrap.Do(c, stage, step, s.host))
    ensures Does(c, stage, s, words, step)
  {
    LineIsSimple(c, s, words, args);
  }

  lemma DataCommand(c: Config, stage: Stage, h: Host)
    requires c.user in h.groups && c.user in h.users
    ensures Simple(c, ["install", "-d", "-m", "0750", "-o", c.user, "-g", c.user, c.dataRoot], h) ==
            Done(Bootstrap.Do(c, stage, Bootstrap.MakeDataRoot, h))
  {
  }

  lemma PerformDoes(c: Config, stage: Stage, s: State, words: seq<Spelling>, step: Bootstrap.Step)
    requires AllWhole(words) && words != [] && words[0].Lit? && Runs(words[0].text) && !s.skipping
    requires Perform(c, MeantAll(Variables(s), words), None, s.host) == Done(Bootstrap.Do(c, stage, step, s.host))
    ensures Does(c, stage, s, words, step)
  {
    CommandRuns(c, s, words);
  }

  lemma DataDoes(c: Config, stage: Stage, s: State)
    requires !s.skipping && Has(Variables(s), SERVICE_USER, c.user) && Has(Variables(s), DATA_ROOT, c.dataRoot)
    requires c.user in s.host.groups && c.user in s.host.users
    ensures Does(c, stage, s, DATA, Bootstrap.MakeDataRoot)
  {
    assert AllWhole(DATA) by { AccountsAreWhole(); }
    assert Runs("install") by { CommandsRun(); }
    DataTokens(Variables(s), c.user, c.dataRoot);
    DataCommand(c, stage, s.host);
    SimpleDoes(c, stage, s, DATA, ["install", "-d", "-m", "0750", "-o", c.user, "-g", c.user, c.dataRoot],
               Bootstrap.MakeDataRoot);
  }

  lemma CopyTokens(env: map<string, string>, source: string, target: string, from: string, to: string)
    requires Has(env, source, from) && Has(env, target, to)
    ensures MeantAll(env, [Lit("install"), Lit("-D"), Lit("-m"), Lit("0755"), Var(source, NONE), Var(target, NEW)]) ==
            ArgTokens(["install", "-D", "-m", "0755", from, Bootstrap.New(to)])
  {
    NoSuffix(from);
    assert !IsOperator("install") && !IsOperator("-D") && !IsOperator("-m") && !IsOperator("0755");
  }

  lemma InstallServerCommand(c: Config, stage: Stage, h: Host)
    requires stage.server in h.files
    ensures Simple(c, ["install", "-D", "-m", "0755", stage.server, Bootstrap.New(c.serverBin)], h) ==
            Done(Bootstrap.Do(c, stage, Bootstrap.InstallServer, h))
  {
  }

  lemma InstallServerDoes(c: Config, stage: Stage, s: State)
    requires !s.skipping && Has(Variables(s), SERVER_SOURCE, stage.server)
    requires Has(Variables(s), SERVER_BIN, c.serverBin) && stage.server in s.host.files
    ensures Does(c, stage, s, INSTALL_SERVER, Bootstrap.InstallServer)
  {
    assert AllWhole(INSTALL_SERVER) by { BinariesAreWhole(); }
    assert Runs("install") by { CommandsRun(); }
    CopyTokens(Variables(s), SERVER_SOURCE, SERVER_BIN, stage.server, c.serverBin);
    InstallServerCommand(c, stage, s.host);
    SimpleDoes(c, stage, s, INSTALL_SERVER, ["install", "-D", "-m", "0755", stage.server, Bootstrap.New(c.serverBin)],
               Bootstrap.InstallServer);
  }

  lemma InstallContextqCommand(c: Config, stage: Stage, h: Host)
    requires stage.contextq in h.files
    ensures Simple(c, ["install", "-D", "-m", "0755", stage.contextq, Bootstrap.New(c.contextqBin)], h) ==
            Done(Bootstrap.Do(c, stage, Bootstrap.InstallContextq, h))
  {
  }

  lemma InstallContextqDoes(c: Config, stage: Stage, s: State)
    requires !s.skipping && Has(Variables(s), CONTEXTQ_SOURCE, stage.contextq)
    requires Has(Variables(s), CONTEXTQ_BIN, c.contextqBin) && stage.contextq in s.host.files
    ensures Does(c, stage, s, INSTALL_CONTEXTQ, Bootstrap.InstallContextq)
  {
    assert AllWhole(INSTALL_CONTEXTQ) by { BinariesAreWhole(); }
    assert Runs("install") by { CommandsRun(); }
    CopyTokens(Variables(s), CONTEXTQ_SOURCE, CONTEXTQ_BIN, stage.contextq, c.contextqBin);
    InstallContextqCommand(c, stage, s.host);
    SimpleDoes(c, stage, s, INSTALL_CONTEXTQ, ["install", "-D", "-m", "0755", stage.contextq, Bootstrap.New(c.contextqBin)],
               Bootstrap.InstallContextq);
  }

  lemma MoveTokens(env: map<string, string>, target: string, to: string)
    requires Has(env, target, to)
    ensures MeantAll(env, [Lit("mv"), Lit("-f"), Var(target, NEW), Var(target, NONE)]) ==
            ArgTokens(["mv", "-f", Bootstrap.New(to), to])
  {
    NoSuffix(to);
    assert !IsOperator("mv") && !IsOperator("-f");
  }

  lemma MoveCommand(c: Config, h: Host, to: string)
    requires Bootstrap.New(to) in h.files
    ensures Simple(c, ["mv", "-f", Bootstrap.New(to), to], h) == Done(Bootstrap.Move(h, Bootstrap.New(to), to))
  {
  }

  lemma MoveDoes(c: Config, stage: Stage, s: State, words: seq<Spelling>, target: string, to: string, step: Bootstrap.Step)
    requires !s.skipping && Has(Variables(s), target, to) && Bootstrap.New(to) in s.host.files && AllWhole(words)
    requires words == [Lit("mv"), Lit("-f"), Var(target, NEW), Var(target, NONE)]
    requires Bootstrap.Do(c, stage, step, s.host) == Bootstrap.Move(s.host, Bootstrap.New(to), to)
    ensures Does(c, stage, s, words, step)
  {
    assert Runs("mv") by { CommandsRun(); }
    MoveTokens(Variables(s), target, to);
    MoveCommand(c, s.host, to);
    SimpleDoes(c, stage, s, words, ["mv", "-f", Bootstrap.New(to), to], step);
  }

  lemma SwapServerDoes(c: Config, stage: Stage, s: State)
    requires !s.skipping && Has(Variables(s), SERVER_BIN, c.serverBin) && Bootstrap.New(c.serverBin) in s.host.files
    ensures Does(c, stage, s, SWAP_SERVER, Bootstrap.SwapServer)
  {
    assert AllWhole(SWAP_SERVER) by { BinariesAreWhole(); }
    MoveDoes(c, stage, s, SWAP_SERVER, SERVER_BIN, c.serverBin, Bootstrap.SwapServer);
  }

  lemma SwapContextqDoes(c: Config, stage: Stage, s: State)
    requires !s.skipping && Has(Variables(s), CONTEXTQ_BIN, c.contextqBin)
    requires Bootstrap.New(c.contextqBin) in s.host.files
    ensures Does(c, stage, s, SWAP_CONTEXTQ, Bootstrap.SwapContextq)
  {
    assert AllWhole(SWAP_CONTEXTQ) by { BinariesAreWhole(); }
    MoveDoes(c, stage, s, SWAP_CONTEXTQ, CONTEXTQ_BIN, c.contextqBin, Bootstrap.SwapContextq);
  }

  lemma SwapUnitDoes(c: Config, stage: Stage, s: State)
    requires !s.skipping && Has(Variables(s), UNIT_PATH, c.unitPath) && Bootstrap.New(c.unitPath) in s.host.files
    ensures Does(c, stage, s, SWAP_UNIT, Bootstrap.SwapUnit)
  {
    assert AllWhole(SWAP_UNIT) by { MiddleAreWhole(); }
    MoveDoes(c, stage, s, SWAP_UNIT, UNIT_PATH, c.unitPath, Bootstrap.SwapUnit);
  }

  lemma SwapSnippetDoes(c: Config, stage: Stage, s: State)
    requires !s.skipping && Has(Variables(s), SNIPPET_PATH, c.snippetPath)
    requires Bootstrap.New(c.snippetPath) in s.host.files
    ensures Does(c, stage, s, SWAP_SNIPPET, Bootstrap.SwapSnippet)
  {
    assert AllWhole(SWAP_SNIPPET) by { SwapAreWhole(); }
    MoveDoes(c, stage, s, SWAP_SNIPPET, SNIPPET_PATH, c.snippetPath, Bootstrap.SwapSnippet);
  }

  lemma SnippetsTokens(env: map<string, string>, dir: string)
    requires Has(env, SNIPPET_DIR, dir)
    ensures MeantAll(env, MAKE_SNIPPETS) == ArgTokens(["install", "-d", "-m", "0755", dir])
  {
    NoSuffix(dir);
    assert !IsOperator("install") && !IsOperator("-d") && !IsOperator("-m") && !IsOperator("0755");
  }

  lemma MakeSnippetsCommand(c: Config, stage: Stage, h: Host)
    ensures Simple(c, ["install", "-d", "-m", "0755", c.snippetDir], h) ==
            Done(Bootstrap.Do(c, stage, Bootstrap.MakeSnippetDir, h))
  {
  }

  lemma MakeSnippetsDoes(c: Config, stage: Stage, s: State)
    requires !s.skipping && Has(Variables(s), SNIPPET_DIR, c.snippetDir)
    ensures Does(c, stage, s, MAKE_SNIPPETS, Bootstrap.MakeSnippetDir)
  {
    assert AllWhole(MAKE_SNIPPETS) by { MiddleAreWhole(); }
    assert Runs("install") by { CommandsRun(); }
    SnippetsTokens(Variables(s), c.snippetDir);
    MakeSnippetsCommand(c, stage, s.host);
    SimpleDoes(c, stage, s, MAKE_SNIPPETS, ["install", "-d", "-m", "0755", c.snippetDir], Bootstrap.MakeSnippetDir);
  }

  // ---- The import ----

  lemma ImportTokens(env: map<string, string>, line: string, path: string)
    requires Has(env, IMPORT_LINE, line) && Has(env, CADDYFILE, path)
    ensures MeantAll(env, IMPORT) ==
            (ArgTokens(["grep", "-qF", line, path]) + [Quiet])
            + ([Or] + (ArgTokens(["printf", "\\n%s\\n", line]) + [AppendTo, Arg(path)]))
  {
    Operators();
    NoSuffix(line);
    NoSuffix(path);
    assert !IsOperator("grep") && !IsOperator("-qF") && !IsOperator("printf");
  }

  lemma Printed(line: string)
    ensures Printf("\\n%s\\n", line) == "\n" + line + "\n"
  {
    var t := "\\n%s\\n";
    assert t[2..] == "%s\\n" && "%s\\n"[2..] == "\\n" && "\\n"[2..] == "";
    assert Printf("\\n", line) == ['\n'] + "" == "\n";
    assert Printf("%s\\n", line) == line + "\n";
    assert Printf(t, line) == ['\n'] + (line + "\n");
  }

  lemma AppendRuns(c: Config, line: string, path: string, h: Host)
    ensures OneCommand(c, ArgTokens(["printf", "\\n%s\\n", line]) + [AppendTo, Arg(path)], None, h) ==
            Done(Bootstrap.WriteFile(h, path, Bootstrap.Read(h, path) + ("\n" + line + "\n")))
  {
    var args := ["printf", "\\n%s\\n", line];
    var t := ArgTokens(args) + [AppendTo, Arg(path)];
    ArgsOfTokens(args);
    Printed(line);
    assert t[3] == AppendTo && t[4] == Arg(path) && t[..3] == ArgTokens(args);
    assert StripQuiet(t) == t;
    assert AppendTo in t && !AllArgs(t);
  }

  lemma GrepRuns(c: Config, stage: Stage, h: Host)
    ensures var found := c.caddyfile in h.files && Bootstrap.Occurs(c.importLine, h.files[c.caddyfile]);
            && Simple(c, ["grep", "-qF", c.importLine, c.caddyfile], h) == (if found then Done(h) else Failed)
            && Bootstrap.Do(c, stage, Bootstrap.AppendImport, h) ==
               (if found then h
                else Bootstrap.WriteFile(h, c.caddyfile, Bootstrap.Read(h, c.caddyfile) + ("\n" + c.importLine + "\n")))
  {
  }

  lemma ImportDoes(c: Config, stage: Stage, s: State)
    requires !s.skipping && Has(Variables(s), CADDYFILE, c.caddyfile) && Has(Variables(s), IMPORT_LINE, c.importLine)
    ensures Does(c, stage, s, IMPORT, Bootstrap.AppendImport)
  {
    var h := s.host;
    var look, line, path := ["grep", "-qF", c.importLine, c.caddyfile], c.importLine, c.caddyfile;
    assert AllWhole(IMPORT) by { ServicesAreWhole(); }
    assert Runs("grep") by { CommandsRun(); }
    ImportTokens(Variables(s), line, path);
    GrepRuns(c, stage, h);
    PerformOr(c, ArgTokens(look) + [Quiet], ArgTokens(["printf", "\\n%s\\n", line]) + [AppendTo, Arg(path)], h);
    QuietRuns(c, look, None, h);
    AppendRuns(c, line, path, h);
    PerformDoes(c, stage, s, IMPORT, Bootstrap.AppendImport);
  }

  // ---- The services ----

  lemma ServiceTokens(env: map<string, string>)
    ensures MeantAll(env, RELOAD) == ArgTokens(["systemctl", "daemon-reload"])
    ensures MeantAll(env, RESTART) == ArgTokens(["systemctl", "restart", "contextq-server.service"])
    ensures MeantAll(env, RELOAD_CADDY) == ArgTokens(["systemctl", "reload", "caddy"])
  {
    assert !IsOperator("systemctl") && !IsOperator("daemon-reload") && !IsOperator("restart");
    assert !IsOperator("contextq-server.service") && !IsOperator("reload") && !IsOperator("caddy");
  }

  lemma QuietTokens(env: map<string, string>)
    ensures MeantAll(env, ENABLE) == ArgTokens(["systemctl", "enable", "contextq-server.service"]) + [Quiet]
    ensures MeantAll(env, ACTIVE) == ArgTokens(["systemctl", "is-active", "--quiet", "contextq-server.service"])
  {
    Operators();
    assert !IsOperator("systemctl") && !IsOperator("enable") && !IsOperator("contextq-server.service");
    assert !IsOperator("is-active") && !IsOperator("--quiet");
  }

  lemma ReloadCommand(c: Config, stage: Stage, h: Host)
    ensures Simple(c, ["systemctl", "daemon-reload"], h) == Done(Bootstrap.Do(c, stage, Bootstrap.DaemonReload, h))
  {
  }

  lemma ReloadDoes(c: Config, stage: Stage, s: State)
    requires !s.skipping
    ensures Does(c, stage, s, RELOAD, Bootstrap.DaemonReload)
  {
    assert AllWhole(RELOAD) by { ServicesAreWhole(); }
    assert Runs("systemctl") by { CommandsRun(); }
    ServiceTokens(Variables(s));
    ReloadCommand(c, stage, s.host);
    SimpleDoes(c, stage, s, RELOAD, ["systemctl", "daemon-reload"], Bootstrap.DaemonReload);
  }

  lemma EnableCommand(c: Config, stage: Stage, h: Host)
    ensures Simple(c, ["systemctl", "enable", "contextq-server.service"], h) ==
            Done(Bootstrap.Do(c, stage, Bootstrap.Enable, h))
  {
  }

  lemma EnableDoes(c: Config, stage: Stage, s: State)
    requires !s.skipping
    ensures Does(c, stage, s, ENABLE, Bootstrap.Enable)
  {
    var args := ["systemctl", "enable", "contextq-server.service"];
    assert AllWhole(ENABLE) by { ServicesAreWhole(); }
    assert Runs("systemctl") by { CommandsRun(); }
    QuietTokens(Variables(s));
    EnableCommand(c, stage, s.host);
    PerformSingle(c, ArgTokens(args) + [Quiet], None, s.host);
    QuietRuns(c, args, None, s.host);
    PerformDoes(c, stage, s, ENABLE, Bootstrap.Enable);
  }

  lemma RestartCommand(c: Config, stage: Stage, h: Host)
    ensures Simple(c, ["systemctl", "restart", "contextq-server.service"], h) ==
            Done(Bootstrap.Do(c, stage, Bootstrap.Restart, h))
  {
  }

  lemma RestartDoes(c: Config, stage: Stage, s: State)
    requires !s.skipping
    ensures Does(c, stage, s, RESTART, Bootstrap.Restart)
  {
    assert AllWhole(RESTART) by { ServicesAreWhole(); }
    assert Runs("systemctl") by { CommandsRun(); }
    ServiceTokens(Variables(s));
    RestartCommand(c, stage, s.host);
    SimpleDoes(c, stage, s, RESTART, ["systemctl", "restart", "contextq-server.service"], Bootstrap.Restart);
  }

  lemma ReloadCaddyCommand(c: Config, stage: Stage, h: Host)
    ensures Simple(c, ["systemctl", "reload", "caddy"], h) == Done(Bootstrap.Do(c, stage, Bootstrap.ReloadCaddy, h))
  {
  }

  lemma ReloadCaddyDoes(c: Config, stage: Stage, s: State)
    requires !s.skipping
    ensures Does(c, stage, s, RELOAD_CADDY, Bootstrap.ReloadCaddy)
  {
    assert AllWhole(RELOAD_CADDY) by { OutcomeAreWhole(); }
    assert Runs("systemctl") by { CommandsRun(); }
    ServiceTokens(Variables(s));
    ReloadCaddyCommand(c, stage, s.host);
    SimpleDoes(c, stage, s, RELOAD_CADDY, ["systemctl", "reload", "caddy"], Bootstrap.ReloadCaddy);
  }

  lemma ActiveCommand(c: Config, stage: Stage, h: Host)
    requires h.services.running.Some?
    ensures Simple(c, ["systemctl", "is-active", "--quiet", "contextq-server.service"], h) ==
            Done(Bootstrap.Do(c, stage, Bootstrap.IsActive, h))
  {
  }

  lemma ActiveDoes(c: Config, stage: Stage, s: State)
    requires !s.skipping && s.host.services.running.Some?
    ensures Does(c, stage, s, ACTIVE, Bootstrap.IsActive)
  {
    assert AllWhole(ACTIVE) by { OutcomeAreWhole(); }
    assert Runs("systemctl") by { CommandsRun(); }
    QuietTokens(Variables(s));
    ActiveCommand(c, stage, s.host);
    SimpleDoes(c, stage, s, ACTIVE, ["systemctl", "is-active", "--quiet", "contextq-server.service"],
               Bootstrap.IsActive);
  }
}
