/** What a run of the bootstrap script comes to: section by section it performs the steps of the bootstrap. */
module ScriptOutcome {
  import opened Text
  import opened Shell
  import opened Script
  import opened ScriptReader
  import opened ScriptLines
  import opened ScriptRun
  import opened ScriptSteps
  import Bootstrap

  // ---- Lines that leave the host alone ----

  lemma PassedRuns(c: Config, s: State, words: seq<Spelling>)
    requires words != [] && Passed(WordText(words[0])) && !s.skipping
    ensures RunWords(c, s, WordTexts(words)) == Going(s)
  {
  }

  lemma PassedWords()
    ensures Passed("#!/bin/sh") && Passed("#")
    ensures Passed("for") && Passed("command")
    ensures Passed("done") && Passed("echo")
  {
  }

  lemma StrictRuns(c: Config, s: State)
    requires !s.skipping
    ensures RunWords(c, s, WordTexts(STRICT)) == Going(s.(strict := true))
  {
    assert WordTexts(STRICT) == ["set", "-eu"];
  }

  lemma StartRuns(c: Config, s: State)
    requires !s.skipping
    ensures RunFixed(c, Going(s), START) == Going(s.(strict := true))
  {
    PassedWords();
    var s' := s.(strict := true);
    First(c, s, L(HASHBANG), [L(TITLE), L(STRICT), EMPTY]);
    PassedRuns(c, s, HASHBANG);
    First(c, s, L(TITLE), [L(STRICT), EMPTY]);
    PassedRuns(c, s, TITLE);
    First(c, s, L(STRICT), [EMPTY]);
    StrictRuns(c, s);
    First(c, s', EMPTY, []);
    EmptyRuns(c, s');
  }

  lemma TrapRuns(c: Config, s: State)
    requires !s.skipping
    ensures RunWords(c, s, WordTexts(TRAP)) == Going(s.(trap := Some("rm -rf \"$STAGE_DIR\"")))
  {
    Texts2();
    TokenMeant(Variables(s), TRAP[1]);
    assert WordTexts(TRAP) == ["trap", WordText(TRAP[1]), "EXIT"];
  }

  lemma TrappingRuns(c: Config, s: State)
    requires !s.skipping
    ensures RunFixed(c, Going(s), TRAPPING) == Going(s.(trap := Some("rm -rf \"$STAGE_DIR\"")))
  {
    var s' := s.(trap := Some("rm -rf \"$STAGE_DIR\""));
    First(c, s, L(TRAP), [EMPTY]);
    TrapRuns(c, s);
    First(c, s', EMPTY, []);
    EmptyRuns(c, s');
  }

  predicate FileTest(words: seq<Spelling>, name: string) {
    && |words| == 12 && words[0] == Lit("[") && words[1] == Lit("-f") && words[2] == Var(name, NONE)
    && words[3] == Lit("]") && words[4] == Lit("||") && words[5] == Lit("{")
    && words[9] == Lit("exit") && words[10] == Lit("1;") && words[11] == Lit("}")
  }

  lemma FileTestRuns(c: Config, s: State, words: seq<Spelling>, name: string, path: string)
    requires FileTest(words, name) && IsName(name) && Has(Variables(s), name, path) && path in s.host.files
    requires !s.skipping
    ensures RunWords(c, s, WordTexts(words)) == Going(s)
  {
    NoSuffix(path);
    TokenMeant(Variables(s), words[2]);
  }

  lemma RootCheckRuns(c: Config, s: State)
    requires !s.skipping
    ensures RunWords(c, s, WordTexts(ROOT_CHECK)) == Going(s)
  {
  }

  lemma ChecksRun(c: Config, s: State, stage: Stage)
    requires !s.skipping && Has(Variables(s), SERVER_SOURCE, stage.server)
    requires Has(Variables(s), CONTEXTQ_SOURCE, stage.contextq)
    requires stage.server in s.host.files && stage.contextq in s.host.files
    ensures RunFixed(c, Going(s), CHECKS) == Going(s)
  {
    First(c, s, L(ROOT_CHECK), CHECKS[1..]);
    RootCheckRuns(c, s);
    LoopRuns(c, s);
    SourcesRun(c, s, stage);
    assert CHECKS == [L(ROOT_CHECK)] + CHECKS[1..];
  }

  lemma PassedFirst(c: Config, s: State, l: FixedLine, rest: seq<FixedLine>)
    requires l.words != [] && Passed(WordText(l.words[0])) && !s.skipping
    ensures RunFixed(c, Going(s), [l] + rest) == RunFixed(c, Going(s), rest)
  {
    First(c, s, l, rest);
    PassedRuns(c, s, l.words);
  }

  lemma LoopRuns(c: Config, s: State)
    requires !s.skipping
    ensures RunFixed(c, Going(s), CHECKS[1..]) == RunFixed(c, Going(s), [L(SERVER_CHECK)] + ([L(CONTEXTQ_CHECK)] + [EMPTY]))
  {
    var rest := [L(SERVER_CHECK)] + ([L(CONTEXTQ_CHECK)] + [EMPTY]);
    PassedWords();
    PassedFirst(c, s, L(COMMANDS), [FixedLine(2, COMMAND_CHECK)] + ([L(DONE)] + rest));
    PassedFirst(c, s, FixedLine(2, COMMAND_CHECK), [L(DONE)] + rest);
    PassedFirst(c, s, L(DONE), rest);
    assert CHECKS[1..] == [L(COMMANDS)] + ([FixedLine(2, COMMAND_CHECK)] + ([L(DONE)] + rest));
  }

  lemma FileTestFirst(c: Config, s: State, words: seq<Spelling>, name: string, path: string, rest: seq<FixedLine>)
    requires FileTest(words, name) && IsName(name) && Has(Variables(s), name, path) && path in s.host.files
    requires !s.skipping
    ensures RunFixed(c, Going(s), [L(words)] + rest) == RunFixed(c, Going(s), rest)
  {
    First(c, s, L(words), rest);
    FileTestRuns(c, s, words, name, path);
  }

  lemma ServerCheckFirst(c: Config, s: State, path: string, rest: seq<FixedLine>)
    requires !s.skipping && Has(Variables(s), SERVER_SOURCE, path) && path in s.host.files
    ensures RunFixed(c, Going(s), [L(SERVER_CHECK)] + rest) == RunFixed(c, Going(s), rest)
  {
    assert IsName(SERVER_SOURCE) by { NamesAreNames(); }
    FileTestFirst(c, s, SERVER_CHECK, SERVER_SOURCE, path, rest);
  }

  lemma ContextqCheckFirst(c: Config, s: State, path: string, rest: seq<FixedLine>)
    requires !s.skipping && Has(Variables(s), CONTEXTQ_SOURCE, path) && path in s.host.files
    ensures RunFixed(c, Going(s), [L(CONTEXTQ_CHECK)] + rest) == RunFixed(c, Going(s), rest)
  {
    assert IsName(CONTEXTQ_SOURCE) by { NamesAreNames(); }
    FileTestFirst(c, s, CONTEXTQ_CHECK, CONTEXTQ_SOURCE, path, rest);
  }

  lemma SourcesRun(c: Config, s: State, stage: Stage)
    requires !s.skipping && stage.server in s.host.files && stage.contextq in s.host.files
    requires Has(Variables(s), SERVER_SOURCE, stage.server) && Has(Variables(s), CONTEXTQ_SOURCE, stage.contextq)
    ensures RunFixed(c, Going(s), [L(SERVER_CHECK)] + ([L(CONTEXTQ_CHECK)] + [EMPTY])) == Going(s)
  {
    ServerCheckFirst(c, s, stage.server, [L(CONTEXTQ_CHECK)] + [EMPTY]);
    ContextqCheckFirst(c, s, stage.contextq, [EMPTY]);
    First(c, s, EMPTY, []);
    EmptyRuns(c, s);
  }

  // ---- Sections ----

  lemma FirstDoes(c: Config, stage: Stage, s: State, words: seq<Spelling>, step: Bootstrap.Step, rest: seq<FixedLine>,
                  steps: seq<Bootstrap.Step>)
    requires Does(c, stage, s, words, step)
    ensures RunFixed(c, Going(s), [L(words)] + rest) ==
            RunFixed(c, Going(s.(host := Bootstrap.Do(c, stage, step, s.host))), rest)
    ensures Bootstrap.DoAll(c, stage, [step] + steps, s.host) ==
            Bootstrap.DoAll(c, stage, steps, Bootstrap.Do(c, stage, step, s.host))
  {
    First(c, s, L(words), rest);
    assert ([step] + steps)[1..] == steps;
  }

  /** The lines perform the steps. */
  predicate Performs(c: Config, stage: Stage, s: State, lines: seq<FixedLine>, steps: seq<Bootstrap.Step>) {
    RunFixed(c, Going(s), lines) == Going(s.(host := Bootstrap.DoAll(c, stage, steps, s.host)))
  }

  lemma LastIsEmpty(c: Config, stage: Stage, s: State)
    ensures Performs(c, stage, s, [EMPTY], [])
    ensures Performs(c, stage, s, [], [])
  {
    First(c, s, EMPTY, []);
    EmptyRuns(c, s);
  }

  lemma Cons(c: Config, stage: Stage, s: State, words: seq<Spelling>, step: Bootstrap.Step, rest: seq<FixedLine>,
             steps: seq<Bootstrap.Step>)
    requires Does(c, stage, s, words, step)
    requires Performs(c, stage, s.(host := Bootstrap.Do(c, stage, step, s.host)), rest, steps)
    ensures Performs(c, stage, s, [L(words)] + rest, [step] + steps)
  {
    FirstDoes(c, stage, s, words, step, rest, steps);
  }

  lemma AccountsRun(c: Config, stage: Stage, s: State)
    requires Bound(s, c, stage)
    ensures Performs(c, stage, s, ACCOUNTS, Bootstrap.ACCOUNTS)
  {
    var h1 := Bootstrap.Do(c, stage, Bootstrap.EnsureGroup, s.host);
    var h2 := Bootstrap.Do(c, stage, Bootstrap.EnsureUser, h1);
    var s1, s2 := s.(host := h1), s.(host := h2);
    var s3 := s.(host := Bootstrap.Do(c, stage, Bootstrap.MakeDataRoot, h2));
    GroupDoes(c, stage, s);
    UserDoes(c, stage, s1);
    DataDoes(c, stage, s2);
    LastIsEmpty(c, stage, s3);
    Cons(c, stage, s2, DATA, Bootstrap.MakeDataRoot, [EMPTY], []);
    Cons(c, stage, s1, USER, Bootstrap.EnsureUser, [L(DATA)] + [EMPTY], [Bootstrap.MakeDataRoot] + []);
    Cons(c, stage, s, GROUP, Bootstrap.EnsureGroup, [L(USER)] + ([L(DATA)] + [EMPTY]),
         [Bootstrap.EnsureUser] + ([Bootstrap.MakeDataRoot] + []));
    assert [L(GROUP)] + ([L(USER)] + ([L(DATA)] + [EMPTY])) == ACCOUNTS;
    assert [Bootstrap.EnsureGroup] + ([Bootstrap.EnsureUser] + ([Bootstrap.MakeDataRoot] + [])) == Bootstrap.ACCOUNTS;
  }

  lemma ServerSwapped(c: Config, stage: Stage, h: Host)
    requires Bootstrap.Distinct(c, stage) && Bootstrap.New(c.contextqBin) in h.files
    ensures Bootstrap.New(c.contextqBin) in Bootstrap.Do(c, stage, Bootstrap.SwapServer, h).files
  {
    Bootstrap.NewsDiffer(c, stage);
  }

  lemma SwapBinariesRun(c: Config, stage: Stage, s: State)
    requires !s.skipping && Has(Variables(s), SERVER_BIN, c.serverBin) && Has(Variables(s), CONTEXTQ_BIN, c.contextqBin)
    requires Bootstrap.Distinct(c, stage)
    requires Bootstrap.New(c.serverBin) in s.host.files && Bootstrap.New(c.contextqBin) in s.host.files
    ensures Performs(c, stage, s, [L(SWAP_SERVER)] + ([L(SWAP_CONTEXTQ)] + [EMPTY]),
                     [Bootstrap.SwapServer] + ([Bootstrap.SwapContextq] + []))
  {
    var h1 := Bootstrap.Do(c, stage, Bootstrap.SwapServer, s.host);
    var s1 := s.(host := h1);
    ServerSwapped(c, stage, s.host);
    LastIsEmpty(c, stage, s.(host := Bootstrap.Do(c, stage, Bootstrap.SwapContextq, h1)));
    SwapContextqDoes(c, stage, s1);
    Cons(c, stage, s1, SWAP_CONTEXTQ, Bootstrap.SwapContextq, [EMPTY], []);
    SwapServerDoes(c, stage, s);
    Cons(c, stage, s, SWAP_SERVER, Bootstrap.SwapServer, [L(SWAP_CONTEXTQ)] + [EMPTY], [Bootstrap.SwapContextq] + []);
  }

  lemma BothInstalled(c: Config, stage: Stage, h: Host)
    requires Bootstrap.Distinct(c, stage) && stage.server in h.files && stage.contextq in h.files
    ensures var h1 := Bootstrap.Do(c, stage, Bootstrap.InstallServer, h);
            var h2 := Bootstrap.Do(c, stage, Bootstrap.InstallContextq, h1);
            stage.contextq in h1.files && Bootstrap.New(c.serverBin) in h2.files && Bootstrap.New(c.contextqBin) in h2.files
  {
  }

  lemma BinariesRun(c: Config, stage: Stage, s: State)
    requires !s.skipping && Has(Variables(s), SERVER_BIN, c.serverBin) && Has(Variables(s), CONTEXTQ_BIN, c.contextqBin)
    requires Has(Variables(s), SERVER_SOURCE, stage.server) && Has(Variables(s), CONTEXTQ_SOURCE, stage.contextq)
    requires Bootstrap.Distinct(c, stage) && stage.server in s.host.files && stage.contextq in s.host.files
    ensures Performs(c, stage, s, BINARIES, Bootstrap.BINARIES)
  {
    var h1 := Bootstrap.Do(c, stage, Bootstrap.InstallServer, s.host);
    var s1 := s.(host := h1);
    var s2 := s.(host := Bootstrap.Do(c, stage, Bootstrap.InstallContextq, h1));
    var lines := [L(SWAP_SERVER)] + ([L(SWAP_CONTEXTQ)] + [EMPTY]);
    var steps := [Bootstrap.SwapServer] + ([Bootstrap.SwapContextq] + []);
    BothInstalled(c, stage, s.host);
    SwapBinariesRun(c, stage, s2);
    InstallContextqDoes(c, stage, s1);
    Cons(c, stage, s1, INSTALL_CONTEXTQ, Bootstrap.InstallContextq, lines, steps);
    InstallServerDoes(c, stage, s);
    Cons(c, stage, s, INSTALL_SERVER, Bootstrap.InstallServer, [L(INSTALL_CONTEXTQ)] + lines,
         [Bootstrap.InstallContextq] + steps);
    assert [L(INSTALL_SERVER)] + ([L(INSTALL_CONTEXTQ)] + lines) == BINARIES;
    assert [Bootstrap.InstallServer] + ([Bootstrap.InstallContextq] + steps) == Bootstrap.BINARIES;
  }

  lemma EmptyFirst(c: Config, stage: Stage, s: State, rest: seq<FixedLine>, steps: seq<Bootstrap.Step>)
    requires Performs(c, stage, s, rest, steps)
    ensures Performs(c, stage, s, [EMPTY] + rest, steps)
  {
    First(c, s, EMPTY, rest);
    EmptyRuns(c, s);
  }

  lemma MiddleRuns(c: Config, stage: Stage, s: State)
    requires Bound(s, c, stage) && Bootstrap.New(c.unitPath) in s.host.files
    ensures Performs(c, stage, s, MIDDLE, [Bootstrap.SwapUnit, Bootstrap.MakeSnippetDir])
  {
    var h1 := Bootstrap.Do(c, stage, Bootstrap.SwapUnit, s.host);
    var s1 := s.(host := h1);
    var s2 := s.(host := Bootstrap.Do(c, stage, Bootstrap.MakeSnippetDir, h1));
    SwapUnitDoes(c, stage, s);
    MakeSnippetsDoes(c, stage, s1);
    LastIsEmpty(c, stage, s2);
    Cons(c, stage, s1, MAKE_SNIPPETS, Bootstrap.MakeSnippetDir, [], []);
    EmptyFirst(c, stage, s1, [L(MAKE_SNIPPETS)] + [], [Bootstrap.MakeSnippetDir] + []);
    Cons(c, stage, s, SWAP_UNIT, Bootstrap.SwapUnit, [EMPTY] + ([L(MAKE_SNIPPETS)] + []),
         [Bootstrap.MakeSnippetDir] + []);
    assert [L(SWAP_UNIT)] + ([EMPTY] + ([L(MAKE_SNIPPETS)] + [])) == MIDDLE;
    assert [Bootstrap.SwapUnit] + ([Bootstrap.MakeSnippetDir] + []) == [Bootstrap.SwapUnit, Bootstrap.MakeSnippetDir];
  }

  lemma SwapRuns(c: Config, stage: Stage, s: State)
    requires Bound(s, c, stage) && Bootstrap.New(c.snippetPath) in s.host.files
    ensures Performs(c, stage, s, SWAP, [Bootstrap.SwapSnippet])
  {
    SwapSnippetDoes(c, stage, s);
    LastIsEmpty(c, stage, s.(host := Bootstrap.Do(c, stage, Bootstrap.SwapSnippet, s.host)));
    Cons(c, stage, s, SWAP_SNIPPET, Bootstrap.SwapSnippet, [], []);
    assert [L(SWAP_SNIPPET)] + [] == SWAP && [Bootstrap.SwapSnippet] + [] == [Bootstrap.SwapSnippet];
  }

  lemma UnitServiceRuns(c: Config, stage: Stage, s: State)
    requires !s.skipping
    ensures Performs(c, stage, s, [L(RELOAD)] + ([L(ENABLE)] + ([L(RESTART)] + [])),
                     [Bootstrap.DaemonReload] + ([Bootstrap.Enable] + ([Bootstrap.Restart] + [])))
  {
    var h1 := Bootstrap.Do(c, stage, Bootstrap.DaemonReload, s.host);
    var h2 := Bootstrap.Do(c, stage, Bootstrap.Enable, h1);
    var s1, s2 := s.(host := h1), s.(host := h2);
    var s3 := s.(host := Bootstrap.Do(c, stage, Bootstrap.Restart, h2));
    ReloadDoes(c, stage, s);
    EnableDoes(c, stage, s1);
    RestartDoes(c, stage, s2);
    LastIsEmpty(c, stage, s3);
    Cons(c, stage, s2, RESTART, Bootstrap.Restart, [], []);
    Cons(c, stage, s1, ENABLE, Bootstrap.Enable, [L(RESTART)] + [], [Bootstrap.Restart] + []);
    Cons(c, stage, s, RELOAD, Bootstrap.DaemonReload, [L(ENABLE)] + ([L(RESTART)] + []),
         [Bootstrap.Enable] + ([Bootstrap.Restart] + []));
  }

  const CHANGES: seq<Bootstrap.Step> := [Bootstrap.AppendImport, Bootstrap.DaemonReload, Bootstrap.Enable, Bootstrap.Restart]

  lemma ServicesRun(c: Config, stage: Stage, s: State)
    requires Bound(s, c, stage) && Has(Variables(s), IMPORT_LINE, c.importLine)
    ensures Performs(c, stage, s, SERVICES, CHANGES)
  {
    var lines := [L(RELOAD)] + ([L(ENABLE)] + ([L(RESTART)] + []));
    var steps := [Bootstrap.DaemonReload] + ([Bootstrap.Enable] + ([Bootstrap.Restart] + []));
    var s1 := s.(host := Bootstrap.Do(c, stage, Bootstrap.AppendImport, s.host));
    ImportDoes(c, stage, s);
    UnitServiceRuns(c, stage, s1);
    EmptyFirst(c, stage, s1, lines, steps);
    Cons(c, stage, s, IMPORT, Bootstrap.AppendImport, [EMPTY] + lines, steps);
    assert [L(IMPORT)] + ([EMPTY] + lines) == SERVICES;
    assert [Bootstrap.AppendImport] + steps == CHANGES;
  }

  lemma CompleteRuns(c: Config, stage: Stage, s: State)
    requires !s.skipping
    ensures Performs(c, stage, s, [L(COMPLETE)], [])
  {
    PassedWords();
    First(c, s, L(COMPLETE), []);
    PassedRuns(c, s, COMPLETE);
    assert [L(COMPLETE)] + [] == [L(COMPLETE)];
  }

  lemma ActiveRuns(c: Config, stage: Stage, s: State)
    requires !s.skipping && s.host.services.running.Some?
    ensures Performs(c, stage, s, [L(ACTIVE)] + [L(COMPLETE)], [Bootstrap.IsActive] + [])
  {
    var s1 := s.(host := Bootstrap.Do(c, stage, Bootstrap.IsActive, s.host));
    ActiveDoes(c, stage, s);
    CompleteRuns(c, stage, s1);
    Cons(c, stage, s, ACTIVE, Bootstrap.IsActive, [L(COMPLETE)], []);
  }

  lemma OutcomeRuns(c: Config, stage: Stage, s: State)
    requires !s.skipping && s.host.services.running.Some?
    ensures Performs(c, stage, s, OUTCOME, [Bootstrap.ReloadCaddy, Bootstrap.IsActive])
  {
    var s1 := s.(host := Bootstrap.Do(c, stage, Bootstrap.ReloadCaddy, s.host));
    assert s1.host.services.running.Some?;
    ActiveRuns(c, stage, s1);
    ReloadCaddyDoes(c, stage, s);
    Cons(c, stage, s, RELOAD_CADDY, Bootstrap.ReloadCaddy, [L(ACTIVE)] + [L(COMPLETE)], [Bootstrap.IsActive] + []);
    assert [L(RELOAD_CADDY)] + ([L(ACTIVE)] + [L(COMPLETE)]) == OUTCOME;
    assert [Bootstrap.ReloadCaddy] + ([Bootstrap.IsActive] + []) == [Bootstrap.ReloadCaddy, Bootstrap.IsActive];
  }

  // ---- The validation ----

  lemma GuardParts()
    ensures IF_NOT + GUARD == "if ! CADDY_OUTPUT"
    ensures "=\"" == ['='] + ['"']
    ensures "\"$CADDYFILE\"" == ['"'] + FILE + ['"']
    ensures "\"; then" == ['"'] + THEN
  {
  }

  lemma GuardRegrouped(prefix: string, name: string, call: string, file: string, output: string, then': string)
    ensures prefix + (name + (['='] + (['"'] + call + ['"'] + (file + (['"'] + output + ['"'] + then'))))) ==
            (prefix + name) + ((['='] + ['"']) + (call + ((['"'] + file + ['"']) + (output + (['"'] + then')))))
  {
  }

  lemma GuardIsGuard()
    ensures GuardLine() == GUARD_LINE
  {
    GuardParts();
    GuardRegrouped(IF_NOT, GUARD, CALL, FILE, OUTPUT, THEN);
  }

  lemma GuardRuns(c: Config, valid: bool, s: State)
    requires !s.skipping
    ensures RunItem(c, valid, s, Command(GuardLine())) == Going(s.(skipping := valid))
  {
    GuardIsGuard();
    GuardIsOrdinary();
  }

  lemma SkippedRuns(c: Config, s: State)
    requires s.skipping
    ensures RunFixed(c, Going(s), FAILURE) == Going(s.(skipping := false))
  {
    assert WordTexts(REPORT)[0] == "printf" && WordTexts(GIVE_UP)[0] == "exit" && WordTexts(END)[0] == "fi";
    First(c, s, FixedLine(2, REPORT), [FixedLine(2, GIVE_UP), L(END)]);
    First(c, s, FixedLine(2, GIVE_UP), [L(END)]);
    First(c, s, L(END), []);
  }

  lemma FailureRuns(c: Config, s: State)
    requires !s.skipping
    ensures RunFixed(c, Going(s), FAILURE) == Exited(s)
  {
    assert WordTexts(REPORT)[0] == "printf" && WordTexts(REPORT)[3] == ">&2" && WordTexts(GIVE_UP)[0] == "exit";
    First(c, s, FixedLine(2, REPORT), [FixedLine(2, GIVE_UP), L(END)]);
    First(c, s, FixedLine(2, GIVE_UP), [L(END)]);
  }

  // ---- The documents ----

  lemma LastWordSplits(delimiter: string)
    requires SafeQuoted(delimiter)
    ensures SplitFrom(Bare, "", ['<', '<'] + (['\''] + delimiter + ['\''])) == Some([['<', '<'] + (['\''] + delimiter + ['\''])])
  {
    var text := ['<', '<'] + (['\''] + delimiter + ['\'']);
    var quoted := ['\''] + (delimiter + (['\''] + ""));
    assert text == ['<', '<'] + quoted;
    SplitBare("", ['<', '<'], quoted);
    assert quoted[1..] == delimiter + (['\''] + "");
    SplitSingle(['<', '<'] + ['\''], delimiter, "");
    assert "" + ['<', '<'] == ['<', '<'];
    assert ['<', '<'] + ['\''] + delimiter + ['\''] == text;
  }

  function OpeningWords(variable: string, delimiter: string): seq<string> {
    ["cat", ">", WordText(Var(variable, NEW)), ['<', '<'] + (['\''] + delimiter + ['\''])]
  }

  lemma CatIs()
    ensures CAT == "cat" + ([' '] + (">" + [' ']))
  {
  }

  lemma CatRegrouped(cat: string, to: string, target: string, last: string)
    ensures (cat + ([' '] + (to + [' ']))) + (['"'] + (target + (['"'] + ([' '] + last)))) ==
            cat + ([' '] + (to + ([' '] + ((['"'] + target + ['"']) + ([' '] + last)))))
  {
  }

  lemma OpeningIsSpelled(variable: string, delimiter: string)
    ensures OpeningLine(variable, delimiter) ==
            WordText(Lit("cat")) + ([' '] + (WordText(Lit(">")) + ([' '] +
              (WordText(Var(variable, NEW)) + ([' '] + (['<', '<'] + (['\''] + delimiter + ['\''])))))))
  {
    CatIs();
    CatRegrouped("cat", ">", ['$'] + variable + NEW, ['<', '<'] + (['\''] + delimiter + ['\'']));
  }

  lemma OpeningSplits(variable: string, delimiter: string)
    requires IsName(variable) && SafeQuoted(delimiter)
    ensures SplitLine(OpeningLine(variable, delimiter)) == Some(OpeningWords(variable, delimiter))
  {
    var last := ['<', '<'] + (['\''] + delimiter + ['\'']);
    var w := Var(variable, NEW);
    OpeningIsSpelled(variable, delimiter);
    Suffixes();
    LastWordSplits(delimiter);
    SplitCons(w, last);
    SplitCons(Lit(">"), WordText(w) + ([' '] + last));
    SplitCons(Lit("cat"), WordText(Lit(">")) + ([' '] + (WordText(w) + ([' '] + last))));
    assert ["cat"] + ([">"] + ([WordText(w)] + [last])) == OpeningWords(variable, delimiter);
  }

  lemma OpeningTokens(env: map<string, string>, variable: string, delimiter: string, path: string)
    requires IsName(variable) && delimiter != "" && Has(env, variable, path)
    ensures Tokens(env, OpeningWords(variable, delimiter)) == ArgTokens(["cat"]) + [To, Arg(Bootstrap.New(path)), Here]
  {
    Operators();
    Suffixes();
    TokenMeant(env, Var(variable, NEW));
    assert !IsOperator("cat");
  }

  lemma CatRuns(c: Config, path: string, body: string, h: Host)
    ensures Perform(c, ArgTokens(["cat"]) + [To, Arg(path), Here], Some(body), h) ==
            Done(Bootstrap.WriteFile(h, path, body))
  {
    var t := ArgTokens(["cat"]) + [To, Arg(path), Here];
    PerformSingle(c, t, Some(body), h);
    ArgsOfTokens(["cat"]);
    assert t[1] == To && t[2] == Arg(path) && t[3] == Here && t[..1] == ArgTokens(["cat"]);
    assert StripQuiet(t) == t;
    assert To in t && !AllArgs(t);
  }

  lemma DocumentRuns(c: Config, valid: bool, s: State, variable: string, delimiter: string, path: string, body: string)
    requires !s.skipping && IsName(variable) && SafeQuoted(delimiter) && delimiter != ""
    requires Has(Variables(s), variable, path)
    ensures RunItem(c, valid, s, Document(OpeningLine(variable, delimiter), body)) ==
            Going(s.(host := Bootstrap.WriteFile(s.host, Bootstrap.New(path), body)))
  {
    OpeningSplits(variable, delimiter);
    OpeningTokens(Variables(s), variable, delimiter, path);
    CatRuns(c, Bootstrap.New(path), body, s.host);
  }

  // ---- The run ----

  lemma DocumentFirst(c: Config, valid: bool, s: State, d: Piece, tail: seq<Piece>)
    requires d.Doc?
    ensures RunItems(c, valid, Going(s), AllHeard([d] + tail)) ==
            RunItems(c, valid, RunItem(c, valid, s, HeardAs(d)), AllHeard(tail))
  {
    assert ([d] + tail)[1..] == tail;
    assert AllHeard([d] + tail)[1..] == AllHeard(tail);
  }

  /** Lines, a document, lines, a document, lines. */
  lemma AssembledRuns(c: Config, valid: bool, first: seq<string>, d: Piece, middle: seq<string>, d': Piece, last: seq<string>,
                      s0: State, s1: State, s2: State, s3: State, s4: State)
    requires d.Doc? && d'.Doc?
    requires RunLines(c, valid, Going(s0), first) == Going(s1)
    requires RunItem(c, valid, s1, HeardAs(d)) == Going(s2)
    requires RunLines(c, valid, Going(s2), middle) == Going(s3)
    requires RunItem(c, valid, s3, HeardAs(d')) == Going(s4)
    ensures RunItems(c, valid, Going(s0), AllHeard(Assembled(first, d, middle, d', last))) ==
            RunLines(c, valid, Going(s4), last)
  {
    var t4 := Lines(last);
    var t3 := Lines(middle) + ([d'] + t4);
    RunHeardLines(c, valid, Going(s0), first, [d] + t3);
    DocumentFirst(c, valid, s1, d, t3);
    RunHeardLines(c, valid, Going(s2), middle, [d'] + t4);
    DocumentFirst(c, valid, s3, d', t4);
    assert t4 == Lines(last) + [];
    RunHeardLines(c, valid, Going(s4), last, []);
  }

  /** A section of a run. */
  lemma SectionPerforms(c: Config, valid: bool, stage: Stage, s: State, lines: seq<FixedLine>, steps: seq<Bootstrap.Step>)
    requires WholeLines(lines) && Performs(c, stage, s, lines, steps)
    ensures RunLines(c, valid, Going(s), Texts(lines)) == Going(s.(host := Bootstrap.DoAll(c, stage, steps, s.host)))
  {
    FixedRun(c, valid, Going(s), lines);
  }

  function TrapOf(f: Fields): Option<string> {
    if f.stageDir.Some? then Some("rm -rf \"$STAGE_DIR\"") else None
  }

  /** The run behind the header. */
  function Started(f: Fields, h: Host): State {
    State(Pairs(Header(f)), h, true, TrapOf(f), false)
  }

  lemma StartedBinds(f: Fields, parents: set<string>, h: Host)
    ensures Bound(Started(f, h), ConfigOf(f, parents), StageOf(f))
  {
    HeaderBinds(Started(f, h), f);
    FieldsBind(Started(f, h), f, parents);
  }

  lemma StartSection(c: Config, valid: bool, s: State)
    requires !s.skipping
    ensures RunLines(c, valid, Going(s), Texts(START)) == Going(s.(strict := true))
  {
    StartAreWhole();
    FixedRun(c, valid, Going(s), START);
    StartRuns(c, s);
  }

  lemma HeaderRuns(c: Config, valid: bool, f: Fields, h: Host)
    requires Printable(f)
    ensures RunLines(c, valid, Going(State([], h, false, None, false)), Texts(START) + BlockLines(Header(f))) ==
            Going(Started(f, h).(trap := None))
  {
    var s := State([], h, false, None, false);
    RunLinesAppend(c, valid, Going(s), Texts(START), BlockLines(Header(f)));
    StartSection(c, valid, s);
    HeaderFields(f);
    BlockRuns(c, valid, s.(strict := true), Header(f));
    assert [] + Pairs(Header(f)) == Pairs(Header(f));
  }

  lemma TrapSets(c: Config, valid: bool, f: Fields, h: Host)
    ensures RunLines(c, valid, Going(Started(f, h).(trap := None)), if f.stageDir.Some? then Texts(TRAPPING) else []) ==
            Going(Started(f, h))
  {
    if f.stageDir.Some? {
      TrappingAreWhole();
      FixedRun(c, valid, Going(Started(f, h).(trap := None)), TRAPPING);
      TrappingRuns(c, Started(f, h).(trap := None));
    }
  }

  lemma ChecksSection(valid: bool, f: Fields, parents: set<string>, h: Host)
    requires f.serverSource in h.files && f.contextqSource in h.files
    ensures RunLines(ConfigOf(f, parents), valid, Going(Started(f, h)), Texts(CHECKS)) == Going(Started(f, h))
  {
    StartedBinds(f, parents, h);
    ChecksAreWhole();
    FixedRun(ConfigOf(f, parents), valid, Going(Started(f, h)), CHECKS);
    ChecksRun(ConfigOf(f, parents), Started(f, h), StageOf(f));
  }

  lemma AccountsSection(valid: bool, f: Fields, parents: set<string>, h: Host)
    ensures var c := ConfigOf(f, parents);
            RunLines(c, valid, Going(Started(f, h)), Texts(ACCOUNTS)) ==
            Going(Started(f, Bootstrap.DoAll(c, StageOf(f), Bootstrap.ACCOUNTS, h)))
  {
    StartedBinds(f, parents, h);
    AccountsAreWhole();
    AccountsRun(ConfigOf(f, parents), StageOf(f), Started(f, h));
    SectionPerforms(ConfigOf(f, parents), valid, StageOf(f), Started(f, h), ACCOUNTS, Bootstrap.ACCOUNTS);
  }

  lemma BinariesSection(valid: bool, f: Fields, parents: set<string>, h: Host)
    requires Bootstrap.Distinct(ConfigOf(f, parents), StageOf(f)) && f.serverSource in h.files
    requires f.contextqSource in h.files
    ensures var c := ConfigOf(f, parents);
            RunLines(c, valid, Going(Started(f, h)), Texts(BINARIES)) ==
            Going(Started(f, Bootstrap.DoAll(c, StageOf(f), Bootstrap.BINARIES, h)))
  {
    StartedBinds(f, parents, h);
    BinariesAreWhole();
    BinariesRun(ConfigOf(f, parents), StageOf(f), Started(f, h));
    SectionPerforms(ConfigOf(f, parents), valid, StageOf(f), Started(f, h), BINARIES, Bootstrap.BINARIES);
  }

  lemma MiddleSection(valid: bool, f: Fields, parents: set<string>, h: Host)
    requires Bootstrap.New(f.unitPath) in h.files
    ensures var c := ConfigOf(f, parents);
            RunLines(c, valid, Going(Started(f, h)), Texts(MIDDLE)) ==
            Going(Started(f, Bootstrap.DoAll(c, StageOf(f), [Bootstrap.SwapUnit, Bootstrap.MakeSnippetDir], h)))
  {
    StartedBinds(f, parents, h);
    MiddleAreWhole();
    MiddleRuns(ConfigOf(f, parents), StageOf(f), Started(f, h));
    SectionPerforms(ConfigOf(f, parents), valid, StageOf(f), Started(f, h), MIDDLE, [Bootstrap.SwapUnit,
                    Bootstrap.MakeSnippetDir]);
  }

  lemma SwapSection(valid: bool, f: Fields, parents: set<string>, h: Host)
    requires Bootstrap.New(f.snippetPath) in h.files
    ensures var c := ConfigOf(f, parents);
            RunLines(c, valid, Going(Started(f, h)), Texts(SWAP)) ==
            Going(Started(f, Bootstrap.DoAll(c, StageOf(f), [Bootstrap.SwapSnippet], h)))
  {
    StartedBinds(f, parents, h);
    SwapAreWhole();
    SwapRuns(ConfigOf(f, parents), StageOf(f), Started(f, h));
    SectionPerforms(ConfigOf(f, parents), valid, StageOf(f), Started(f, h), SWAP, [Bootstrap.SwapSnippet]);
  }

  /** The run behind the assignment of the import line. */
  function Imported(f: Fields, h: Host): State {
    State(Performed(f), h, true, TrapOf(f), false)
  }

  lemma ImportSection(valid: bool, f: Fields, parents: set<string>, h: Host)
    requires Printable(f)
    ensures RunLines(ConfigOf(f, parents), valid, Going(Started(f, h)), BlockLines(ImportBlock(f))) == Going(Imported(f, h))
  {
    HeaderFields(f);
    BlockRuns(ConfigOf(f, parents), valid, Started(f, h), ImportBlock(f));
  }

  lemma ImportedBinds(f: Fields, parents: set<string>, h: Host)
    ensures Bound(Imported(f, h), ConfigOf(f, parents), StageOf(f))
    ensures Has(Variables(Imported(f, h)), IMPORT_LINE, f.importLine)
  {
    VariablesSet(f);
    FieldsBind(Imported(f, h), f, parents);
  }

  lemma ServicesSection(valid: bool, f: Fields, parents: set<string>, h: Host)
    ensures var c := ConfigOf(f, parents);
            RunLines(c, valid, Going(Imported(f, h)), Texts(SERVICES)) ==
            Going(Imported(f, Bootstrap.DoAll(c, StageOf(f), CHANGES, h)))
  {
    ImportedBinds(f, parents, h);
    ServicesAreWhole();
    ServicesRun(ConfigOf(f, parents), StageOf(f), Imported(f, h));
    SectionPerforms(ConfigOf(f, parents), valid, StageOf(f), Imported(f, h), SERVICES, CHANGES);
  }

  lemma OneLineRuns(c: Config, valid: bool, s: State, l: string)
    ensures RunLines(c, valid, Going(s), [l]) == RunItem(c, valid, s, Command(l))
  {
    assert [l][1..] == [];
  }

  /** What a run ends in behind the guard: its last steps, or an exit. */
  function Decided(valid: bool, c: Config, f: Fields, h: Host): Progress {
    if valid then Going(Imported(f, Bootstrap.DoAll(c, StageOf(f), [Bootstrap.ReloadCaddy, Bootstrap.IsActive], h)))
    else Exited(Imported(f, h))
  }

  lemma FailureSection(c: Config, valid: bool, f: Fields, h: Host)
    ensures RunLines(c, valid, Going(Imported(f, h).(skipping := valid)), Texts(FAILURE)) ==
            if valid then Going(Imported(f, h)) else Exited(Imported(f, h))
  {
    var s := Imported(f, h).(skipping := valid);
    FailureAreWhole();
    FixedRun(c, valid, Going(s), FAILURE);
    if valid {
      SkippedRuns(c, s);
    } else {
      FailureRuns(c, s);
    }
  }

  lemma OutcomeSection(valid: bool, f: Fields, parents: set<string>, h: Host)
    requires h.services.running.Some?
    ensures var c := ConfigOf(f, parents);
            RunLines(c, valid, if valid then Going(Imported(f, h)) else Exited(Imported(f, h)), Texts(OUTCOME)) ==
            Decided(valid, c, f, h)
  {
    if valid {
      OutcomeAreWhole();
      OutcomeRuns(ConfigOf(f, parents), StageOf(f), Imported(f, h));
      SectionPerforms(ConfigOf(f, parents), valid, StageOf(f), Imported(f, h), OUTCOME, [Bootstrap.ReloadCaddy,
                      Bootstrap.IsActive]);
    }
  }

  /** The lines behind the assignment of the import line. */
  function Decision(): seq<string> {
    [GuardLine()] + Texts(FAILURE) + Texts(OUTCOME)
  }

  lemma DecisionRuns(valid: bool, f: Fields, parents: set<string>, h: Host)
    requires h.services.running.Some?
    ensures var c := ConfigOf(f, parents);
            RunLines(c, valid, Going(Imported(f, h)), Decision()) == Decided(valid, c, f, h)
  {
    var c, s := ConfigOf(f, parents), Imported(f, h);
    RunLinesAppend(c, valid, Going(s), [GuardLine()] + Texts(FAILURE), Texts(OUTCOME));
    RunLinesAppend(c, valid, Going(s), [GuardLine()], Texts(FAILURE));
    OneLineRuns(c, valid, s, GuardLine());
    GuardRuns(c, valid, s);
    FailureSection(c, valid, f, h);
    OutcomeSection(valid, f, parents, h);
  }

  // ---- The whole run ----

  function AfterBinaries(c: Config, stage: Stage, h: Host): Host {
    Bootstrap.DoAll(c, stage, Bootstrap.BINARIES, Bootstrap.DoAll(c, stage, Bootstrap.ACCOUNTS, h))
  }

  lemma FirstLinesRun(valid: bool, f: Fields, parents: set<string>, h: Host)
    requires Printable(f) && Bootstrap.Distinct(ConfigOf(f, parents), StageOf(f))
    requires f.serverSource in h.files && f.contextqSource in h.files
    ensures RunLines(ConfigOf(f, parents), valid, Going(State([], h, false, None, false)), FirstLines(f, FixedOf(f))) ==
            Going(Started(f, AfterBinaries(ConfigOf(f, parents), StageOf(f), h)))
  {
    var c, p := ConfigOf(f, parents), Going(State([], h, false, None, false));
    var h1 := Bootstrap.DoAll(c, StageOf(f), Bootstrap.ACCOUNTS, h);
    var trapping := if f.stageDir.Some? then Texts(TRAPPING) else [];
    HeaderRuns(c, valid, f, h);
    RunLinesAppend(c, valid, p, Texts(START) + BlockLines(Header(f)),
                   trapping + Texts(CHECKS) + Texts(ACCOUNTS) + Texts(BINARIES));
    var p1 := Going(Started(f, h).(trap := None));
    RunLinesAppend(c, valid, p1, trapping + Texts(CHECKS) + Texts(ACCOUNTS), Texts(BINARIES));
    RunLinesAppend(c, valid, p1, trapping + Texts(CHECKS), Texts(ACCOUNTS));
    RunLinesAppend(c, valid, p1, trapping, Texts(CHECKS));
    TrapSets(c, valid, f, h);
    ChecksSection(valid, f, parents, h);
    AccountsSection(valid, f, parents, h);
    Bootstrap.AccountsBlock(c, StageOf(f), h);
    BinariesSection(valid, f, parents, h1);
  }

  function AfterImport(c: Config, stage: Stage, h: Host): Host {
    Bootstrap.DoAll(c, stage, CHANGES, Bootstrap.DoAll(c, stage, [Bootstrap.SwapSnippet], h))
  }

  lemma {:induction false} RestartedIsRunning(c: Config, stage: Stage, h: Host)
    ensures Bootstrap.DoAll(c, stage, CHANGES, h).services.running.Some?
  {
    var changes, restart := [Bootstrap.AppendImport, Bootstrap.DaemonReload, Bootstrap.Enable], [Bootstrap.Restart];
    assert changes + restart == CHANGES;
    Bootstrap.DoAllAppend(c, stage, changes, restart, h);
    assert restart[1..] == [];
  }

  lemma Regrouped(a: seq<string>, b: seq<string>, c: seq<string>, d: seq<string>, e: seq<string>, g: seq<string>)
    ensures a + b + (c + d + e + g) == a + (b + (c + (d + e + g)))
  {
  }

  lemma LastLinesSplit(f: Fields)
    ensures LastLines(f, FixedOf(f)) == Texts(SWAP) + (BlockLines(ImportBlock(f)) + (Texts(SERVICES) + Decision()))
  {
    Regrouped(Texts(SWAP), BlockLines(ImportBlock(f)), Texts(SERVICES), [GuardLine()], Texts(FAILURE), Texts(OUTCOME));
  }

  lemma ImportedRuns(valid: bool, f: Fields, parents: set<string>, h: Host)
    ensures var c := ConfigOf(f, parents);
            RunLines(c, valid, Going(Imported(f, h)), Texts(SERVICES) + Decision()) ==
            Decided(valid, c, f, Bootstrap.DoAll(c, StageOf(f), CHANGES, h))
  {
    var c := ConfigOf(f, parents);
    RunLinesAppend(c, valid, Going(Imported(f, h)), Texts(SERVICES), Decision());
    ServicesSection(valid, f, parents, h);
    RestartedIsRunning(c, StageOf(f), h);
    DecisionRuns(valid, f, parents, Bootstrap.DoAll(c, StageOf(f), CHANGES, h));
  }

  lemma LastLinesRun(valid: bool, f: Fields, parents: set<string>, h: Host)
    requires Printable(f) && Bootstrap.New(f.snippetPath) in h.files
    ensures var c := ConfigOf(f, parents);
            RunLines(c, valid, Going(Started(f, h)), LastLines(f, FixedOf(f))) ==
            Decided(valid, c, f, AfterImport(c, StageOf(f), h))
  {
    var c, p := ConfigOf(f, parents), Going(Started(f, h));
    var rest := Texts(SERVICES) + Decision();
    var h1 := Bootstrap.DoAll(c, StageOf(f), [Bootstrap.SwapSnippet], h);
    LastLinesSplit(f);
    RunLinesAppend(c, valid, p, Texts(SWAP), BlockLines(ImportBlock(f)) + rest);
    SwapSection(valid, f, parents, h);
    RunLinesAppend(c, valid, Going(Started(f, h1)), BlockLines(ImportBlock(f)), rest);
    ImportSection(valid, f, parents, h1);
    ImportedRuns(valid, f, parents, h1);
  }

  lemma DelimitersAreSafe()
    ensures SafeQuoted(SYSTEMD) && SafeQuoted(Script.CADDY)
  {
  }

  lemma DocumentDoes(c: Config, stage: Stage, valid: bool, s: State, opening: string, variable: string, delimiter: string,
                     path: string, body: string, step: Bootstrap.Step)
    requires !s.skipping && IsName(variable) && SafeQuoted(delimiter) && delimiter != ""
    requires Has(Variables(s), variable, path)
    requires opening == OpeningLine(variable, delimiter)
    requires Bootstrap.Do(c, stage, step, s.host) == Bootstrap.WriteFile(s.host, Bootstrap.New(path), body)
    ensures RunItem(c, valid, s, Document(opening, body)) == Going(s.(host := Bootstrap.Do(c, stage, step, s.host)))
  {
    DocumentRuns(c, valid, s, variable, delimiter, path, body);
  }

  lemma UnitWritten(c: Config, stage: Stage, valid: bool, s: State)
    requires !s.skipping && Has(Variables(s), UNIT_PATH, c.unitPath)
    ensures RunItem(c, valid, s, Document(UnitOpening(), c.unitText)) ==
            Going(s.(host := Bootstrap.Do(c, stage, Bootstrap.WriteUnit, s.host)))
  {
    assert IsName(UNIT_PATH) by { NamesAreNames(); }
    assert SafeQuoted(SYSTEMD) by { DelimitersAreSafe(); }
    DocumentDoes(c, stage, valid, s, UnitOpening(), UNIT_PATH, SYSTEMD, c.unitPath, c.unitText, Bootstrap.WriteUnit);
  }

  lemma SnippetWritten(c: Config, stage: Stage, valid: bool, s: State)
    requires !s.skipping && Has(Variables(s), SNIPPET_PATH, c.snippetPath)
    ensures RunItem(c, valid, s, Document(SnippetOpening(), c.snippetText)) ==
            Going(s.(host := Bootstrap.Do(c, stage, Bootstrap.WriteSnippet, s.host)))
  {
    assert IsName(SNIPPET_PATH) by { NamesAreNames(); }
    assert SafeQuoted(Script.CADDY) by { DelimitersAreSafe(); }
    DocumentDoes(c, stage, valid, s, SnippetOpening(), SNIPPET_PATH, Script.CADDY, c.snippetPath, c.snippetText,
                 Bootstrap.WriteSnippet);
  }

  const VALIDATE: nat := |Bootstrap.ACCOUNTS| + |Bootstrap.BINARIES| + |Bootstrap.UNIT| + |Bootstrap.CADDY| + 3

  /** The host at the validation. */
  function Changed(c: Config, stage: Stage, h: Host): Host {
    var unit := Bootstrap.Do(c, stage, Bootstrap.WriteUnit, AfterBinaries(c, stage, h));
    var middle := Bootstrap.DoAll(c, stage, [Bootstrap.SwapUnit, Bootstrap.MakeSnippetDir], unit);
    AfterImport(c, stage, Bootstrap.Do(c, stage, Bootstrap.WriteSnippet, middle))
  }

  lemma OneStep(c: Config, stage: Stage, step: Bootstrap.Step, h: Host)
    ensures Bootstrap.DoAll(c, stage, [step], h) == Bootstrap.Do(c, stage, step, h)
  {
    assert [step][1..] == [];
  }

  lemma ScriptSplits()
    ensures VALIDATE < |Bootstrap.SCRIPT| && Bootstrap.SCRIPT[VALIDATE] == Bootstrap.Validate
    ensures Bootstrap.SCRIPT[..VALIDATE] ==
            Bootstrap.ACCOUNTS + Bootstrap.BINARIES
            + ([Bootstrap.WriteUnit] + ([Bootstrap.SwapUnit, Bootstrap.MakeSnippetDir]
            + ([Bootstrap.WriteSnippet] + ([Bootstrap.SwapSnippet] + CHANGES))))
    ensures Bootstrap.SCRIPT == Bootstrap.SCRIPT[..VALIDATE] + ([Bootstrap.Validate] + [Bootstrap.ReloadCaddy, Bootstrap.IsActive])
  {
  }

  lemma ChangedIsScript(c: Config, stage: Stage, h: Host)
    ensures Changed(c, stage, h) == Bootstrap.DoAll(c, stage, Bootstrap.SCRIPT[..VALIDATE], h)
  {
    var t3 := [Bootstrap.SwapSnippet] + CHANGES;
    var t2 := [Bootstrap.WriteSnippet] + t3;
    var t1 := [Bootstrap.SwapUnit, Bootstrap.MakeSnippetDir] + t2;
    var h1 := AfterBinaries(c, stage, h);
    ScriptSplits();
    Bootstrap.DoAllAppend(c, stage, Bootstrap.ACCOUNTS + Bootstrap.BINARIES, [Bootstrap.WriteUnit] + t1, h);
    Bootstrap.DoAllAppend(c, stage, Bootstrap.ACCOUNTS, Bootstrap.BINARIES, h);
    Bootstrap.DoAllAppend(c, stage, [Bootstrap.WriteUnit], t1, h1);
    OneStep(c, stage, Bootstrap.WriteUnit, h1);
    var h2 := Bootstrap.Do(c, stage, Bootstrap.WriteUnit, h1);
    Bootstrap.DoAllAppend(c, stage, [Bootstrap.SwapUnit, Bootstrap.MakeSnippetDir], t2, h2);
    var h3 := Bootstrap.DoAll(c, stage, [Bootstrap.SwapUnit, Bootstrap.MakeSnippetDir], h2);
    Bootstrap.DoAllAppend(c, stage, [Bootstrap.WriteSnippet], t3, h3);
    OneStep(c, stage, Bootstrap.WriteSnippet, h3);
    Bootstrap.DoAllAppend(c, stage, [Bootstrap.SwapSnippet], CHANGES, Bootstrap.Do(c, stage, Bootstrap.WriteSnippet, h3));
  }

  lemma RestIsScript(c: Config, stage: Stage, h: Host)
    ensures Bootstrap.DoAll(c, stage, [Bootstrap.ReloadCaddy, Bootstrap.IsActive], Bootstrap.DoAll(c, stage, Bootstrap.SCRIPT[..VALIDATE], h)) ==
            Bootstrap.DoAll(c, stage, Bootstrap.SCRIPT, h)
  {
    var rest := [Bootstrap.ReloadCaddy, Bootstrap.IsActive];
    var h1 := Bootstrap.DoAll(c, stage, Bootstrap.SCRIPT[..VALIDATE], h);
    ScriptSplits();
    Bootstrap.DoAllAppend(c, stage, Bootstrap.SCRIPT[..VALIDATE], [Bootstrap.Validate] + rest, h);
    Bootstrap.DoAllAppend(c, stage, [Bootstrap.Validate], rest, h1);
    OneStep(c, stage, Bootstrap.Validate, h1);
  }

  lemma DocsHeard(f: Fields, parents: set<string>)
    ensures HeardAs(Doc(UnitOpening(), SYSTEMD, UnitLines(f))) == Document(UnitOpening(), ConfigOf(f, parents).unitText)
    ensures HeardAs(Doc(SnippetOpening(), Script.CADDY, SnippetLines(f))) ==
            Document(SnippetOpening(), ConfigOf(f, parents).snippetText)
  {
  }

  lemma DocsWritten(valid: bool, f: Fields, parents: set<string>, h: Host)
    ensures var c, stage := ConfigOf(f, parents), StageOf(f);
            && RunItem(c, valid, Started(f, h), HeardAs(Doc(UnitOpening(), SYSTEMD, UnitLines(f)))) ==
               Going(Started(f, Bootstrap.Do(c, stage, Bootstrap.WriteUnit, h)))
            && RunItem(c, valid, Started(f, h), HeardAs(Doc(SnippetOpening(), Script.CADDY, SnippetLines(f)))) ==
               Going(Started(f, Bootstrap.Do(c, stage, Bootstrap.WriteSnippet, h)))
  {
    DocsHeard(f, parents);
    StartedBinds(f, parents, h);
    UnitWritten(ConfigOf(f, parents), StageOf(f), valid, Started(f, h));
    SnippetWritten(ConfigOf(f, parents), StageOf(f), valid, Started(f, h));
  }

  lemma NewFileIsThere(c: Config, stage: Stage, h: Host)
    ensures Bootstrap.New(c.unitPath) in Bootstrap.Do(c, stage, Bootstrap.WriteUnit, h).files
    ensures Bootstrap.New(c.snippetPath) in Bootstrap.Do(c, stage, Bootstrap.WriteSnippet, h).files
  {
  }

  lemma PiecesRun(valid: bool, f: Fields, parents: set<string>, h: Host)
    requires Printable(f) && Bootstrap.Distinct(ConfigOf(f, parents), StageOf(f))
    requires f.serverSource in h.files && f.contextqSource in h.files
    ensures var c := ConfigOf(f, parents);
            RunItems(c, valid, Going(State([], h, false, None, false)), AllHeard(Pieces(f, FixedOf(f)))) ==
            Decided(valid, c, f, Changed(c, StageOf(f), h))
  {
    var c, stage := ConfigOf(f, parents), StageOf(f);
    var h1 := AfterBinaries(c, stage, h);
    var h2 := Bootstrap.Do(c, stage, Bootstrap.WriteUnit, h1);
    var h3 := Bootstrap.DoAll(c, stage, [Bootstrap.SwapUnit, Bootstrap.MakeSnippetDir], h2);
    var h4 := Bootstrap.Do(c, stage, Bootstrap.WriteSnippet, h3);
    FirstLinesRun(valid, f, parents, h);
    DocsWritten(valid, f, parents, h1);
    NewFileIsThere(c, stage, h1);
    MiddleSection(valid, f, parents, h2);
    DocsWritten(valid, f, parents, h3);
    NewFileIsThere(c, stage, h3);
    LastLinesRun(valid, f, parents, h4);
    AssembledRuns(c, valid, FirstLines(f, FixedOf(f)), Doc(UnitOpening(), SYSTEMD, UnitLines(f)), Texts(MIDDLE),
                  Doc(SnippetOpening(), Script.CADDY, SnippetLines(f)), LastLines(f, FixedOf(f)),
                  State([], h, false, None, false), Started(f, h1), Started(f, h2), Started(f, h3), Started(f, h4));
  }

  // ---- The exit ----

  lemma ActionSplits()
    ensures SplitLine("rm -rf \"$STAGE_DIR\"") == Some(["rm", "-rf", WordText(Var(STAGE_DIR, NONE))])
  {
    var words := [Lit("rm"), Lit("-rf"), Var(STAGE_DIR, NONE)];
    ActionWords();
    ActionIsSpelled();
    SplitSpelled(words);
    assert WordTexts(words) == ["rm", "-rf", WordText(Var(STAGE_DIR, NONE))];
  }

  lemma ActionWords()
    ensures AllWhole([Lit("rm"), Lit("-rf"), Var(STAGE_DIR, NONE)])
  {
    NamesAreNames();
    Suffixes();
    assert BareText("rm") && BareText("-rf");
  }

  lemma SpelledCons(w: Spelling, words: seq<Spelling>)
    requires words != []
    ensures Spelled([w] + words) == WordText(w) + ([' '] + Spelled(words))
    ensures Spelled([w]) == WordText(w)
  {
    assert ([w] + words)[1..] == words;
  }

  lemma ActionParts()
    ensures "rm -rf \"$STAGE_DIR\"" == "rm" + ([' '] + ("-rf" + ([' '] + WordText(Var(STAGE_DIR, NONE)))))
  {
    assert WordText(Var(STAGE_DIR, NONE)) == "\"$STAGE_DIR\"";
  }

  lemma ActionIsSpelled()
    ensures Spelled([Lit("rm"), Lit("-rf"), Var(STAGE_DIR, NONE)]) == "rm -rf \"$STAGE_DIR\""
  {
    var w := Var(STAGE_DIR, NONE);
    assert [Lit("rm"), Lit("-rf"), w] == [Lit("rm")] + ([Lit("-rf")] + [w]);
    SpelledCons(Lit("rm"), [Lit("-rf")] + [w]);
    SpelledCons(Lit("-rf"), [w]);
    SpelledCons(w, [w]);
    ActionParts();
  }

  lemma ActionTokens(env: map<string, string>, d: string)
    requires Has(env, STAGE_DIR, d)
    ensures Tokens(env, ["rm", "-rf", WordText(Var(STAGE_DIR, NONE))]) == [Arg("rm"), Arg("-rf"), Arg(d)]
  {
    NamesAreNames();
    Suffixes();
    NoSuffix(d);
    TokenMeant(env, Var(STAGE_DIR, NONE));
    assert !IsOperator("rm") && !IsOperator("-rf");
  }

  lemma TrapRemoves(status: nat, s: State, d: string)
    requires s.trap == Some("rm -rf \"$STAGE_DIR\"") && Has(Variables(s), STAGE_DIR, d)
    ensures AtExit(status, s) == Ended(status, Removed(d, s.host))
  {
    ActionSplits();
    ActionTokens(Variables(s), d);
  }

  /** The staging directory holds a run's uploads, and nothing else that is or comes to be on the host. */
  ghost predicate Staged(c: Config, stage: Stage, d: string, h: Host) {
    && Under(d, stage.server) && Under(d, stage.contextq)
    && (forall p :: p in h.files || p in Bootstrap.Targets(c) + Bootstrap.News(c) + {c.caddyfile} ==> !Under(d, p))
    && (forall p :: p in h.dirs + {c.dataRoot} + c.parents + {c.snippetDir} ==> !Under(d, p))
  }

  lemma OnlyUploadsUnder(c: Config, stage: Stage, d: string, h0: Host, h: Host, p: string)
    requires Staged(c, stage, d, h0) && Bootstrap.Between(c, stage, h0, h) && p in h.files
    ensures Under(d, p) <==> p == stage.server || p == stage.contextq
  {
    if p !in Bootstrap.Targets(c) + Bootstrap.News(c) + {c.caddyfile, stage.server, stage.contextq} {
      assert p in h0.files;
    }
  }

  lemma NoDirectoryUnder(c: Config, stage: Stage, d: string, h0: Host, h: Host)
    requires Staged(c, stage, d, h0) && Bootstrap.Between(c, stage, h0, h)
    ensures Removed(d, h).dirs == h.dirs
  {
  }

  lemma RemovedIsCleanup(c: Config, stage: Stage, d: string, h0: Host, h: Host)
    requires Staged(c, stage, d, h0) && Bootstrap.Between(c, stage, h0, h)
    ensures Removed(d, h) == Bootstrap.Cleanup(stage, h)
  {
    NoDirectoryUnder(c, stage, d, h0, h);
    assert Removed(d, h).files == h.files - {stage.server, stage.contextq} by {
      forall p | p in h.files ensures Under(d, p) <==> p == stage.server || p == stage.contextq {
        OnlyUploadsUnder(c, stage, d, h0, h, p);
      }
    }
  }

  /** How a run ends whose last state is s. */
  lemma Exits(status: nat, f: Fields, parents: set<string>, h0: Host, h: Host)
    requires f.stageDir.Some?
    requires var c := ConfigOf(f, parents);
             Staged(c, StageOf(f), f.stageDir.value, h0) && Bootstrap.Between(c, StageOf(f), h0, h)
    ensures AtExit(status, Imported(f, h)) == Ended(status, Bootstrap.Cleanup(StageOf(f), h))
  {
    VariablesSet(f);
    TrapRemoves(status, Imported(f, h), f.stageDir.value);
    RemovedIsCleanup(ConfigOf(f, parents), StageOf(f), f.stageDir.value, h0, h);
  }

  lemma TextRuns(valid: bool, f: Fields, parents: set<string>, h: Host)
    requires Printable(f) && Bootstrap.Distinct(ConfigOf(f, parents), StageOf(f))
    requires f.serverSource in h.files && f.contextqSource in h.files
    ensures var c := ConfigOf(f, parents);
            RunText(c, valid, ScriptText(f, FixedOf(f)), h) == ScriptRun.Finish(Decided(valid, c, f, Changed(c, StageOf(f), h)))
  {
    FixedAreOrdinary(f);
    PiecesWellFormed(f, FixedOf(f));
    ReadRendered(Pieces(f, FixedOf(f)));
    PiecesRun(valid, f, parents, h);
  }

  lemma UploadedBetween(c: Config, stage: Stage, b: Bootstrap.Binaries, steps: seq<Bootstrap.Step>, h: Host)
    requires Bootstrap.Distinct(c, stage)
    ensures var start := Bootstrap.Upload(stage, b, h);
            Bootstrap.Between(c, stage, h, Bootstrap.DoAll(c, stage, steps, start))
  {
    Bootstrap.DoAllBetween(c, stage, steps, h, Bootstrap.Upload(stage, b, h));
  }

  /** Where the script ends: with the steps of the bootstrap performed in their order, up to the validation if Caddy
      refuses its files. Without a trap the uploads stay. */
  lemma ScriptPerformsSteps(valid: bool, f: Fields, parents: set<string>, h: Host)
    requires Printable(f) && Bootstrap.Distinct(ConfigOf(f, parents), StageOf(f))
    requires f.serverSource in h.files && f.contextqSource in h.files
    ensures var c, stage := ConfigOf(f, parents), StageOf(f);
            RunText(c, valid, ScriptText(f, FixedOf(f)), h) ==
            if valid then AtExit(0, Imported(f, Bootstrap.DoAll(c, stage, Bootstrap.SCRIPT, h)))
            else AtExit(1, Imported(f, Bootstrap.DoAll(c, stage, Bootstrap.SCRIPT[..VALIDATE], h)))
    ensures Bootstrap.SCRIPT[VALIDATE] == Bootstrap.Validate
  {
    var c, stage := ConfigOf(f, parents), StageOf(f);
    TextRuns(valid, f, parents, h);
    ChangedIsScript(c, stage, h);
    RestIsScript(c, stage, h);
    ScriptSplits();
  }

  lemma SuccessExits(f: Fields, parents: set<string>, b: Bootstrap.Binaries, h: Host)
    requires f.stageDir.Some?
    requires var c, stage := ConfigOf(f, parents), StageOf(f);
             Bootstrap.Distinct(c, stage) && Bootstrap.Unstaged(stage, h) && Staged(c, stage, f.stageDir.value, h)
    ensures var c, stage := ConfigOf(f, parents), StageOf(f);
            AtExit(0, Imported(f, Bootstrap.DoAll(c, stage, Bootstrap.SCRIPT, Bootstrap.Upload(stage, b, h)))) ==
            Ended(0, Bootstrap.Final(c, b, h))
  {
    var c, stage := ConfigOf(f, parents), StageOf(f);
    UploadedBetween(c, stage, b, Bootstrap.SCRIPT, h);
    Exits(0, f, parents, h, Bootstrap.DoAll(c, stage, Bootstrap.SCRIPT, Bootstrap.Upload(stage, b, h)));
    assert Bootstrap.SCRIPT[..|Bootstrap.SCRIPT|] == Bootstrap.SCRIPT;
    Bootstrap.FullIsFinal(c, stage, b, h);
  }

  lemma FailureExits(f: Fields, parents: set<string>, b: Bootstrap.Binaries, h: Host)
    requires f.stageDir.Some?
    requires var c, stage := ConfigOf(f, parents), StageOf(f);
             Bootstrap.Distinct(c, stage) && Bootstrap.Unstaged(stage, h) && Staged(c, stage, f.stageDir.value, h)
    ensures var c, stage := ConfigOf(f, parents), StageOf(f);
            AtExit(1, Imported(f, Bootstrap.DoAll(c, stage, Bootstrap.SCRIPT[..VALIDATE], Bootstrap.Upload(stage, b, h)))) ==
            Ended(1, Bootstrap.Partial(c, stage, b, VALIDATE, h))
  {
    var c, stage := ConfigOf(f, parents), StageOf(f);
    UploadedBetween(c, stage, b, Bootstrap.SCRIPT[..VALIDATE], h);
    Exits(1, f, parents, h, Bootstrap.DoAll(c, stage, Bootstrap.SCRIPT[..VALIDATE], Bootstrap.Upload(stage, b, h)));
  }

  /** A shell that runs the text BootstrapScript returns, on any host without uploads of the run, takes it to where
      the bootstrap takes it. When Caddy refuses its files, the script fails and leaves what the steps before the
      validation left. The trap removes the uploads either way. */
  lemma ScriptIsBootstrap(valid: bool, f: Fields, parents: set<string>, b: Bootstrap.Binaries, h: Host)
    requires Printable(f) && f.stageDir.Some?
    requires var c, stage := ConfigOf(f, parents), StageOf(f);
             Bootstrap.Distinct(c, stage) && Bootstrap.Unstaged(stage, h) && Staged(c, stage, f.stageDir.value, h)
    ensures var c, stage := ConfigOf(f, parents), StageOf(f);
            RunText(c, valid, ScriptText(f, FixedOf(f)), Bootstrap.Upload(stage, b, h)) ==
            if valid then Ended(0, Bootstrap.Final(c, b, h))
            else Ended(1, Bootstrap.Partial(c, stage, b, VALIDATE, h))
  {
    ScriptPerformsSteps(valid, f, parents, Bootstrap.Upload(StageOf(f), b, h));
    if valid {
      SuccessExits(f, parents, b, h);
    } else {
      FailureExits(f, parents, b, h);
    }
  }

  /** What a host runs after the script has succeeded on it, whatever it held before. */
  lemma ScriptInstalls(f: Fields, parents: set<string>, b: Bootstrap.Binaries, h: Host) returns (after: Host)
    requires Printable(f) && f.stageDir.Some?
    requires var c, stage := ConfigOf(f, parents), StageOf(f);
             Bootstrap.Distinct(c, stage) && Bootstrap.Unstaged(stage, h) && Staged(c, stage, f.stageDir.value, h)
    ensures RunText(ConfigOf(f, parents), true, ScriptText(f, FixedOf(f)), Bootstrap.Upload(StageOf(f), b, h)) == Ended(0, after)
    ensures f.user in after.users && f.user in after.groups && f.dataRoot in after.dirs
    ensures f.serverBin in after.files && after.files[f.serverBin] == b.server
    ensures f.contextqBin in after.files && after.files[f.contextqBin] == b.contextq
    ensures f.serverSource !in after.files && f.contextqSource !in after.files
    ensures f.unitPath in after.files && after.files[f.unitPath] == Unlines(UnitLines(f))
    ensures f.snippetPath in after.files && after.files[f.snippetPath] == Unlines(SnippetLines(f))
    ensures f.caddyfile in after.files && Bootstrap.Occurs(f.importLine, after.files[f.caddyfile])
    ensures after.services.enabled && after.services.running == Some((Unlines(UnitLines(f)), b.server))
    ensures after.services.caddy == Some((after.files[f.caddyfile], Unlines(SnippetLines(f))))
  {
    var c, stage := ConfigOf(f, parents), StageOf(f);
    ScriptIsBootstrap(true, f, parents, b, h);
    after := Bootstrap.Final(c, b, h);
    FinalHolds(c, stage, b, h);
  }

  lemma FinalHolds(c: Config, stage: Stage, b: Bootstrap.Binaries, h: Host)
    requires Bootstrap.Distinct(c, stage) && Bootstrap.Unstaged(stage, h)
    ensures var after := Bootstrap.Final(c, b, h);
            && c.user in after.users && c.user in after.groups && c.dataRoot in after.dirs
            && Bootstrap.Targets(c) <= after.files.Keys && Bootstrap.Unstaged(stage, after)
            && after.files[c.serverBin] == b.server && after.files[c.contextqBin] == b.contextq
            && after.files[c.unitPath] == c.unitText && after.files[c.snippetPath] == c.snippetText
            && c.caddyfile in after.files && Bootstrap.Occurs(c.importLine, after.files[c.caddyfile])
            && after.services == Bootstrap.Services(Some(c.unitText), true, Some((c.unitText, b.server)),
                                                    Some((after.files[c.caddyfile], c.snippetText)))
  {
    Bootstrap.OccursAppended(c, Bootstrap.Read(h, c.caddyfile));
  }
}
