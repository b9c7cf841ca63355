/** The lines of the bootstrap script that hold no field, spelled word by word, and why a shell takes none of them
    for an assignment or for the start of a here-document. */
module ScriptLines {
  import opened Text
  import opened Shell
  import opened Script
  import opened ScriptReader

  // ---- Spelling ----

  /** A word: bare, between single or double quotes, or a variable with a suffix between double quotes. */
  datatype Spelling = Lit(text: string) | Q1(text: string) | Q2(text: string) | Var(name: string, suffix: string)

  function WordText(w: Spelling): string {
    match w
    case Lit(t) => t
    case Q1(t) => ['\''] + t + ['\'']
    case Q2(t) => ['"'] + t + ['"']
    case Var(name, suffix) => ['"'] + (['$'] + name + suffix) + ['"']
  }

  function Spelled(words: seq<Spelling>): string {
    if words == [] then ""
    else if |words| == 1 then WordText(words[0])
    else WordText(words[0]) + ([' '] + Spelled(words[1..]))
  }

  /** A line with its indentation. */
  datatype FixedLine = FixedLine(indent: nat, words: seq<Spelling>)

  function Blanks(n: nat): string {
    seq(n, _ => ' ')
  }

  function LineText(l: FixedLine): string {
    Blanks(l.indent) + Spelled(l.words)
  }

  function Texts(lines: seq<FixedLine>): seq<string> {
    if lines == [] then [] else [LineText(lines[0])] + Texts(lines[1..])
  }

  predicate SafeChar(c: char) {
    Unquoting(c) && c != '\n' && c != '='
  }

  predicate SafeText(t: string) {
    forall i :: 0 <= i < |t| ==> SafeChar(t[i])
  }

  /** Within single quotes everything stands for itself. */
  predicate SafeQuoted(t: string) {
    forall i :: 0 <= i < |t| ==> t[i] != '\'' && t[i] != '\n' && t[i] != '='
  }

  /** A bare word has no blank in it, and nothing that is expanded. */
  predicate BareText(t: string) {
    t != "" && forall i :: 0 <= i < |t| ==> SafeChar(t[i]) && t[i] != ' ' && t[i] != '$'
  }

  predicate NameChar(c: char) {
    'A' <= c <= 'Z' || 'a' <= c <= 'z' || '0' <= c <= '9' || c == '_'
  }

  /** What may follow the name of a variable. */
  predicate Suffix(t: string) {
    SafeText(t) && (forall i :: 0 <= i < |t| ==> t[i] != '$') && (t != "" ==> !NameChar(t[0]))
  }

  predicate Whole(w: Spelling) {
    match w
    case Lit(t) => BareText(t)
    case Q1(t) => SafeQuoted(t)
    case Q2(t) => SafeText(t)
    case Var(name, suffix) => IsName(name) && Suffix(suffix)
  }

  predicate AllWhole(words: seq<Spelling>) {
    forall w :: w in words ==> Whole(w)
  }

  predicate WholeLines(lines: seq<FixedLine>) {
    forall l :: l in lines ==> AllWhole(l.words)
  }

  // ---- Why they are ordinary ----

  lemma {:induction false} ScanSingle(t: string, rest: string)
    requires SafeQuoted(t)
    ensures Scan(Single, t + (['\''] + rest)) == Scan(Bare, rest)
    decreases t
  {
    var s := t + (['\''] + rest);
    if t == "" {
      assert s[1..] == rest;
    } else {
      assert s[1..] == t[1..] + (['\''] + rest);
      ScanSingle(t[1..], rest);
    }
  }

  /** What stands between the double quotes of a variable. */
  lemma VariableText(name: string, suffix: string)
    requires IsName(name) && Suffix(suffix)
    ensures SafeText(['$'] + name + suffix)
  {
    NameIsPlain([], name);
    var t := ['$'] + name + suffix;
    forall i | 0 <= i < |t| ensures SafeChar(t[i]) {
      if 1 <= i <= |name| {
        assert t[i] == name[i - 1] && Plain(name[i - 1]);
      } else if i > |name| {
        assert t[i] == suffix[i - 1 - |name|];
      }
    }
  }

  lemma ScanDoubleQuoted(t: string, rest: string)
    requires SafeText(t)
    ensures Scan(Bare, ['"'] + t + ['"'] + rest) == Scan(Bare, rest)
  {
    assert ['"'] + t + ['"'] + rest == ['"'] + (t + (['"'] + rest));
    assert (['"'] + (t + (['"'] + rest)))[1..] == t + (['"'] + rest);
    ScanDouble(t, rest);
  }

  lemma ScanWord(w: Spelling, rest: string)
    requires Whole(w)
    ensures Scan(Bare, WordText(w) + rest) == Scan(Bare, rest)
    ensures '\n' !in WordText(w) && '=' !in WordText(w)
  {
    match w
    case Lit(t) => ScanBare(t, rest);
    case Q1(t) =>
      assert WordText(w) + rest == ['\''] + (t + (['\''] + rest));
      assert (['\''] + (t + (['\''] + rest)))[1..] == t + (['\''] + rest);
      ScanSingle(t, rest);
    case Q2(t) => ScanDoubleQuoted(t, rest);
    case Var(name, suffix) =>
      VariableText(name, suffix);
      ScanDoubleQuoted(['$'] + name + suffix, rest);
  }

  lemma ScanBetween(w: Spelling, more: string, rest: string)
    requires Whole(w)
    ensures Scan(Bare, WordText(w) + ([' '] + more) + rest) == Scan(Bare, more + rest)
  {
    assert WordText(w) + ([' '] + more) + rest == WordText(w) + ([' '] + (more + rest));
    ScanWord(w, [' '] + (more + rest));
    ScanBare([' '], more + rest);
  }

  lemma {:induction false} ScanSpelled(words: seq<Spelling>, rest: string)
    requires AllWhole(words)
    ensures Scan(Bare, Spelled(words) + rest) == Scan(Bare, rest)
    decreases |words|
  {
    if words == [] {
      assert Spelled(words) + rest == rest;
    } else {
      assert words[0] in words;
      if |words| == 1 {
        ScanWord(words[0], rest);
      } else {
        ScanBetween(words[0], Spelled(words[1..]), rest);
        ScanSpelled(words[1..], rest);
      }
    }
  }

  lemma {:induction false} SpelledChars(words: seq<Spelling>)
    requires AllWhole(words)
    ensures '\n' !in Spelled(words) && '=' !in Spelled(words)
    decreases |words|
  {
    if words != [] {
      assert words[0] in words;
      ScanWord(words[0], "");
      SpelledChars(words[1..]);
    }
  }

  lemma LineIsOrdinary(l: FixedLine)
    requires AllWhole(l.words)
    ensures Ordinary(LineText(l)) && '=' !in LineText(l)
  {
    ScanBare(Blanks(l.indent), Spelled(l.words));
    ScanSpelled(l.words, "");
    SpelledChars(l.words);
    assert Spelled(l.words) + "" == Spelled(l.words);
    OrdinaryLine(LineText(l));
  }

  lemma {:induction false} LinesAreOrdinary(lines: seq<FixedLine>)
    requires WholeLines(lines)
    ensures forall s :: s in Texts(lines) ==> Ordinary(s)
    decreases lines
  {
    if lines != [] {
      assert lines[0] in lines;
      LineIsOrdinary(lines[0]);
      LinesAreOrdinary(lines[1..]);
    }
  }

  // ---- The lines ----

  const SERVICE_USER := NAMES[0]
  const DATA_ROOT := NAMES[1]
  const SERVER_SOURCE := NAMES[2]
  const CONTEXTQ_SOURCE := NAMES[3]
  const SERVER_BIN := NAMES[4]
  const CONTEXTQ_BIN := NAMES[5]
  const UNIT_PATH := NAMES[6]
  const CADDYFILE := NAMES[7]
  const SNIPPET_DIR := NAMES[8]
  const SNIPPET_PATH := NAMES[9]
  const NONE: string := ""
  const NEW: string := ".new"

  const HASHBANG: seq<Spelling> := [Lit("#!/bin/sh")]
  const TITLE: seq<Spelling> :=
    [Lit("#"), Lit("contextq-server"), Lit("remote-init"), Lit("—"), Lit("idempotent"), Lit("host"),
     Lit("bootstrap")]
  const STRICT: seq<Spelling> := [Lit("set"), Lit("-eu")]
  const TRAP: seq<Spelling> := [Lit("trap"), Q1("rm -rf \"$STAGE_DIR\""), Lit("EXIT")]
  const ROOT_CHECK: seq<Spelling> :=
    [Lit("["), Q2("$(id -u)"), Lit("-eq"), Lit("0"), Lit("]"), Lit("||"), Lit("{"), Lit("echo"),
     Q1("remote-init must run as root"), Lit(">&2;"), Lit("exit"), Lit("1;"), Lit("}")]
  const COMMANDS: seq<Spelling> :=
    [Lit("for"), Lit("command"), Lit("in"), Lit("getent"), Lit("groupadd"), Lit("useradd"), Lit("install"),
     Lit("runuser"), Lit("systemctl"), Lit("caddy;"), Lit("do")]
  const COMMAND_CHECK: seq<Spelling> :=
    [Lit("command"), Lit("-v"), Q2("$command"), Lit(">/dev/null"), Lit("2>&1"), Lit("||"), Lit("{"),
     Lit("echo"), Q2("missing required command: $command"), Lit(">&2;"), Lit("exit"), Lit("1;"), Lit("}")]
  const DONE: seq<Spelling> := [Lit("done")]
  const SERVER_CHECK: seq<Spelling> :=
    [Lit("["), Lit("-f"), Var(SERVER_SOURCE, NONE), Lit("]"), Lit("||"), Lit("{"), Lit("echo"),
     Q2("missing staged binary: $SERVER_SOURCE"), Lit(">&2;"), Lit("exit"), Lit("1;"), Lit("}")]
  const CONTEXTQ_CHECK: seq<Spelling> :=
    [Lit("["), Lit("-f"), Var(CONTEXTQ_SOURCE, NONE), Lit("]"), Lit("||"), Lit("{"), Lit("echo"),
     Q2("missing staged binary: $CONTEXTQ_SOURCE"), Lit(">&2;"), Lit("exit"), Lit("1;"), Lit("}")]
  const GROUP: seq<Spelling> :=
    [Lit("getent"), Lit("group"), Var(SERVICE_USER, NONE), Lit(">/dev/null"), Lit("2>&1"), Lit("||"),
     Lit("groupadd"), Lit("--system"), Var(SERVICE_USER, NONE)]
  const USER: seq<Spelling> :=
    [Lit("id"), Var(SERVICE_USER, NONE), Lit(">/dev/null"), Lit("2>&1"), Lit("||"), Lit("useradd"),
     Lit("--system"), Lit("--gid"), Var(SERVICE_USER, NONE), Lit("--home-dir"), Var(DATA_ROOT, NONE),
     Lit("--no-create-home"), Lit("--shell"), Lit("/usr/sbin/nologin"), Var(SERVICE_USER, NONE)]
  const DATA: seq<Spelling> :=
    [Lit("install"), Lit("-d"), Lit("-m"), Lit("0750"), Lit("-o"), Var(SERVICE_USER, NONE), Lit("-g"),
     Var(SERVICE_USER, NONE), Var(DATA_ROOT, NONE)]
  const INSTALL_SERVER: seq<Spelling> :=
    [Lit("install"), Lit("-D"), Lit("-m"), Lit("0755"), Var(SERVER_SOURCE, NONE), Var(SERVER_BIN, NEW)]
  const INSTALL_CONTEXTQ: seq<Spelling> :=
    [Lit("install"), Lit("-D"), Lit("-m"), Lit("0755"), Var(CONTEXTQ_SOURCE, NONE), Var(CONTEXTQ_BIN, NEW)]
  const SWAP_SERVER: seq<Spelling> := [Lit("mv"), Lit("-f"), Var(SERVER_BIN, NEW), Var(SERVER_BIN, NONE)]
  const SWAP_CONTEXTQ: seq<Spelling> := [Lit("mv"), Lit("-f"), Var(CONTEXTQ_BIN, NEW), Var(CONTEXTQ_BIN, NONE)]
  const SWAP_UNIT: seq<Spelling> := [Lit("mv"), Lit("-f"), Var(UNIT_PATH, NEW), Var(UNIT_PATH, NONE)]
  const MAKE_SNIPPETS: seq<Spelling> :=
    [Lit("install"), Lit("-d"), Lit("-m"), Lit("0755"), Var(SNIPPET_DIR, NONE)]
  const SWAP_SNIPPET: seq<Spelling> := [Lit("mv"), Lit("-f"), Var(SNIPPET_PATH, NEW), Var(SNIPPET_PATH, NONE)]
  const IMPORT: seq<Spelling> :=
    [Lit("grep"), Lit("-qF"), Var(IMPORT_LINE, NONE), Var(CADDYFILE, NONE), Lit("2>/dev/null"), Lit("||"),
     Lit("printf"), Q1("\\n%s\\n"), Var(IMPORT_LINE, NONE), Lit(">>"), Var(CADDYFILE, NONE)]
  const RELOAD: seq<Spelling> := [Lit("systemctl"), Lit("daemon-reload")]
  const ENABLE: seq<Spelling> :=
    [Lit("systemctl"), Lit("enable"), Lit("contextq-server.service"), Lit(">/dev/null")]
  const RESTART: seq<Spelling> := [Lit("systemctl"), Lit("restart"), Lit("contextq-server.service")]
  const REPORT: seq<Spelling> := [Lit("printf"), Q1("%s\\n"), Q2("$CADDY_OUTPUT"), Lit(">&2")]
  const GIVE_UP: seq<Spelling> := [Lit("exit"), Lit("1")]
  const END: seq<Spelling> := [Lit("fi")]
  const RELOAD_CADDY: seq<Spelling> := [Lit("systemctl"), Lit("reload"), Lit("caddy")]
  const ACTIVE: seq<Spelling> :=
    [Lit("systemctl"), Lit("is-active"), Lit("--quiet"), Lit("contextq-server.service")]
  const COMPLETE: seq<Spelling> := [Lit("echo"), Q1("contextq-server bootstrap complete")]

  /** The line that validates the Caddyfile starts with these words, and sets this variable. */
  const GUARD: string := "CADDY_OUTPUT"
  const IF_NOT: string := ['i', 'f', ' ', '!', ' ']

  /** What it sets it to, up to the end of the line: the quotes within end and begin the quotation. */
  const CALL: string := "$(caddy validate --config "
  const FILE: string := "$CADDYFILE"
  const OUTPUT: string := " 2>&1)"
  const THEN: string := "; then"

  function Validation(): string {
    ['"'] + CALL + ['"'] + (FILE + (['"'] + OUTPUT + ['"'] + THEN))
  }

  function GuardLine(): string {
    IF_NOT + (GUARD + (['='] + Validation()))
  }

  function L(words: seq<Spelling>): FixedLine {
    FixedLine(0, words)
  }

  const EMPTY := FixedLine(0, [])
  const START := [L(HASHBANG), L(TITLE), L(STRICT), EMPTY]
  const TRAPPING := [L(TRAP), EMPTY]
  const CHECKS :=
    [L(ROOT_CHECK), L(COMMANDS), FixedLine(2, COMMAND_CHECK), L(DONE), L(SERVER_CHECK), L(CONTEXTQ_CHECK), EMPTY]
  const ACCOUNTS := [L(GROUP), L(USER), L(DATA), EMPTY]
  const BINARIES := [L(INSTALL_SERVER), L(INSTALL_CONTEXTQ), L(SWAP_SERVER), L(SWAP_CONTEXTQ), EMPTY]
  const MIDDLE := [L(SWAP_UNIT), EMPTY, L(MAKE_SNIPPETS)]
  const SWAP := [L(SWAP_SNIPPET)]
  const SERVICES := [L(IMPORT), EMPTY, L(RELOAD), L(ENABLE), L(RESTART)]
  const FAILURE := [FixedLine(2, REPORT), FixedLine(2, GIVE_UP), L(END)]
  const OUTCOME := [L(RELOAD_CADDY), L(ACTIVE), L(COMPLETE)]

  /** The lines without fields, around those of f. */
  function FixedOf(f: Fields): FixedLines {
    FixedLines(
      Texts(START),
      (if f.stageDir.Some? then Texts(TRAPPING) else []) + Texts(CHECKS) + Texts(ACCOUNTS) + Texts(BINARIES),
      Texts(MIDDLE),
      Texts(SWAP),
      Texts(SERVICES) + [GuardLine()] + Texts(FAILURE) + Texts(OUTCOME))
  }

  // ---- Why their words are whole, text by text ----

  lemma Suffixes()
    ensures Suffix(NONE) && Suffix(NEW)
  {
  }

  lemma Texts1()
    ensures BareText("#!/bin/sh")
    ensures BareText("#")
    ensures BareText("contextq-server")
    ensures BareText("remote-init")
    ensures BareText("—")
    ensures BareText("idempotent")
    ensures BareText("host")
    ensures BareText("bootstrap")
    ensures BareText("set")
    ensures BareText("-eu")
    ensures BareText("trap")
  {
  }

  lemma Texts2()
    ensures SafeQuoted("rm -rf \"$STAGE_DIR\"")
    ensures BareText("EXIT")
    ensures BareText("[")
    ensures SafeText("$(id -u)")
    ensures BareText("-eq")
    ensures BareText("0")
    ensures BareText("]")
    ensures BareText("||")
    ensures BareText("{")
    ensures BareText("echo")
    ensures SafeQuoted("remote-init must run as root")
    ensures BareText(">&2;")
    ensures BareText("exit")
  {
  }

  lemma Texts3()
    ensures BareText("1;")
    ensures BareText("}")
    ensures BareText("for")
    ensures BareText("command")
    ensures BareText("in")
    ensures BareText("getent")
    ensures BareText("groupadd")
    ensures BareText("useradd")
    ensures BareText("install")
    ensures BareText("runuser")
    ensures BareText("systemctl")
    ensures BareText("caddy;")
    ensures BareText("do")
    ensures BareText("-v")
    ensures SafeText("$command")
    ensures BareText(">/dev/null")
    ensures BareText("2>&1")
  {
  }

  lemma Texts4()
    ensures SafeText("missing required command: $command")
    ensures BareText("done")
    ensures BareText("-f")
  {
  }

  lemma Texts10()
    ensures SafeText("missing staged binary: $SERVER_SOURCE")
  {
  }
  lemma Texts5()
    ensures SafeText("missing staged binary: $CONTEXTQ_SOURCE")
  {
  }

  lemma Texts6()
    ensures BareText("group")
    ensures BareText("--system")
    ensures BareText("id")
    ensures BareText("--gid")
    ensures BareText("--home-dir")
    ensures BareText("--no-create-home")
    ensures BareText("--shell")
    ensures BareText("/usr/sbin/nologin")
  {
  }

  lemma Texts7()
    ensures BareText("-d")
    ensures BareText("-m")
    ensures BareText("0750")
    ensures BareText("-o")
    ensures BareText("-g")
    ensures BareText("-D")
    ensures BareText("0755")
    ensures BareText("mv")
    ensures BareText("grep")
    ensures BareText("-qF")
    ensures BareText("2>/dev/null")
    ensures BareText("printf")
    ensures SafeQuoted("\\n%s\\n")
    ensures BareText(">>")
    ensures BareText("daemon-reload")
    ensures BareText("enable")
  {
  }

  lemma Texts8()
    ensures BareText("contextq-server.service")
    ensures BareText("restart")
    ensures SafeQuoted("%s\\n")
    ensures SafeText("$CADDY_OUTPUT")
    ensures BareText(">&2")
    ensures BareText("1")
    ensures BareText("fi")
    ensures BareText("reload")
    ensures BareText("caddy")
    ensures BareText("is-active")
    ensures BareText("--quiet")
  {
  }

  lemma Texts9()
    ensures SafeQuoted("contextq-server bootstrap complete")
  {
  }

  lemma RootCheckIsWhole()
    ensures AllWhole(ROOT_CHECK)
  {
    Texts2();
    Texts3();
  }

  lemma CommandCheckIsWhole()
    ensures AllWhole(COMMAND_CHECK)
  {
    Texts2();
    Texts3();
    Texts4();
  }

  lemma LoopIsWhole()
    ensures AllWhole(COMMANDS) && AllWhole(COMMAND_CHECK) && AllWhole(DONE)
  {
    assert AllWhole(COMMANDS) by {
      Texts3();
    }
    CommandCheckIsWhole();
    assert AllWhole(DONE) by {
      Texts4();
    }
  }

  lemma SourceChecksAreWhole()
    ensures AllWhole(SERVER_CHECK) && AllWhole(CONTEXTQ_CHECK)
  {
    assert AllWhole(SERVER_CHECK) by {
      Texts2();
      Texts3();
      Texts4();
      Texts10();
      NamesAreNames();
      Suffixes();
    }
    assert AllWhole(CONTEXTQ_CHECK) by {
      Texts2();
      Texts3();
      Texts4();
      Texts5();
      NamesAreNames();
      Suffixes();
    }
  }

  // ---- The script ----

  lemma RunIf(tail: string)
    ensures Run(Blank, [], ['i'] + (['f'] + ([' '] + tail))) == Run(Blank, [Word(['i', 'f'], None)], tail)
  {
    assert ['i'] + ['f'] == ['i', 'f'];
    RunStep(Blank, [], 'i', ['f'] + ([' '] + tail));
    RunStep(InWord(['i'], None), [], 'f', [' '] + tail);
    RunStep(InWord(['i', 'f'], None), [], ' ', tail);
    assert [] + [Word(['i', 'f'], None)] == [Word(['i', 'f'], None)];
  }

  lemma RunNot(out: seq<ShellToken>, tail: string)
    ensures Run(Blank, out, ['!'] + ([' '] + tail)) == Run(Blank, out + [Word(['!'], None)], tail)
  {
    RunStep(Blank, out, '!', [' '] + tail);
    RunStep(InWord(['!'], None), out, ' ', tail);
  }

  lemma RunIfNot(tail: string)
    ensures Run(Blank, [], IF_NOT + tail) == Run(Blank, [Word(['i', 'f'], None), Word(['!'], None)], tail)
  {
    var rest := ['!'] + ([' '] + tail);
    assert IF_NOT + tail == ['i'] + (['f'] + ([' '] + rest));
    RunIf(rest);
    RunNot([Word(['i', 'f'], None)], tail);
    assert [Word(['i', 'f'], None)] + [Word(['!'], None)] == [Word(['i', 'f'], None), Word(['!'], None)];
  }

  /** The lexer gives up on a double quote. */
  lemma NameThenDoubleQuote(out: seq<ShellToken>, name: string, rest: string)
    requires IsName(name)
    ensures Run(Blank, out, name + (['='] + (['"'] + rest))) == None
  {
    NameIsPlain(out, name);
    var tail := name[1..] + ['='];
    var quoted := ['"'] + rest;
    assert name + (['='] + quoted) == [name[0]] + (tail + quoted);
    RunStep(Blank, out, name[0], tail + quoted);
    assert forall i :: 0 <= i < |tail| ==> Plain(tail[i]);
    RunName(out, [name[0]], tail, quoted);
    RunStep(InWord([name[0]] + tail, None), out, '"', rest);
  }

  lemma GuardIsName()
    ensures IsName(GUARD)
  {
  }

  /** The prefix of the guard has no quote in it. */
  lemma GuardPrefix(name: string, rest: string)
    requires IsName(name)
    ensures OpeningOf(IF_NOT + (name + (['='] + rest))) == Scan(Bare, rest)
    ensures '\n' !in rest ==> OneLine(IF_NOT + (name + (['='] + rest)))
  {
    NameIsPlain([], name);
    var prefix := IF_NOT + (name + ['=']);
    assert IF_NOT + (name + (['='] + rest)) == prefix + rest;
    assert forall i :: 0 <= i < |name| ==> Plain(name[i]);
    ScanBare(prefix, rest);
    assert OneLine(prefix) by {
      assert forall i :: 0 <= i < |prefix| ==> prefix[i] != '\n';
    }
  }

  lemma ValidationStretches()
    ensures SafeText(CALL) && SafeText(FILE)
    ensures SafeText(OUTPUT) && SafeText(THEN)
  {
  }

  lemma ScanStretches(a: string, b: string, c: string, d: string)
    requires SafeText(a) && SafeText(b) && SafeText(c) && SafeText(d)
    ensures var t := ['"'] + a + ['"'] + (b + (['"'] + c + ['"'] + d));
            Scan(Bare, t) == NoDocument && '\n' !in t && '=' !in t && t == ['"'] + t[1..]
  {
    ScanDoubleQuoted(a, b + (['"'] + c + ['"'] + d));
    ScanBare(b, ['"'] + c + ['"'] + d);
    ScanDoubleQuoted(c, d);
    ScanBare(d, "");
    assert d + "" == d;
  }

  lemma GuardIsOrdinary()
    ensures Ordinary(GuardLine())
  {
    ValidationStretches();
    ScanStretches(CALL, FILE, OUTPUT, THEN);
    GuardIsName();
    NamedGuardIsOrdinary(GUARD, Validation());
  }

  lemma NamedGuardIsOrdinary(name: string, value: string)
    requires IsName(name) && Scan(Bare, value) == NoDocument && '\n' !in value && value != "" && value[0] == '"'
    ensures Ordinary(IF_NOT + (name + (['='] + value)))
  {
    GuardPrefix(name, value);
    var rest := value[1..];
    assert value == ['"'] + rest;
    RunIfNot(name + (['='] + value));
    NameThenDoubleQuote([Word(['i', 'f'], None), Word(['!'], None)], name, rest);
  }

  lemma StartAreWhole()
    ensures AllWhole(HASHBANG) && AllWhole(TITLE) && AllWhole(STRICT)
    ensures WholeLines(START)
  {
    assert AllWhole(HASHBANG) by {
      Texts1();
    }
    assert AllWhole(TITLE) by {
      Texts1();
    }
    assert AllWhole(STRICT) by {
      Texts1();
    }
  }

  lemma TrappingAreWhole()
    ensures AllWhole(TRAP)
    ensures WholeLines(TRAPPING)
  {
    assert AllWhole(TRAP) by {
      Texts1();
      Texts2();
    }
  }

  lemma ChecksAreWhole()
    ensures WholeLines(CHECKS)
  {
    RootCheckIsWhole();
    LoopIsWhole();
    SourceChecksAreWhole();
  }

  lemma UserIsWhole()
    ensures AllWhole(USER)
  {
    Texts2();
    Texts3();
    Texts6();
    NamesAreNames();
    Suffixes();
  }

  lemma GroupIsWhole()
    ensures AllWhole(GROUP)
  {
    Texts2();
    Texts3();
    Texts6();
    NamesAreNames();
    Suffixes();
  }

  lemma AccountsAreWhole()
    ensures AllWhole(GROUP) && AllWhole(USER) && AllWhole(DATA)
    ensures WholeLines(ACCOUNTS)
  {
    GroupIsWhole();
    UserIsWhole();
    assert AllWhole(DATA) by {
      Texts3();
      Texts7();
      NamesAreNames();
      Suffixes();
    }
  }

  lemma BinariesAreWhole()
    ensures AllWhole(INSTALL_SERVER) && AllWhole(INSTALL_CONTEXTQ) && AllWhole(SWAP_SERVER) && AllWhole(SWAP_CONTEXTQ)
    ensures WholeLines(BINARIES)
  {
    assert AllWhole(INSTALL_SERVER) by {
      Texts3();
      Texts7();
      NamesAreNames();
      Suffixes();
    }
    assert AllWhole(INSTALL_CONTEXTQ) by {
      Texts3();
      Texts7();
      NamesAreNames();
      Suffixes();
    }
    assert AllWhole(SWAP_SERVER) by {
      Texts4();
      Texts7();
      NamesAreNames();
      Suffixes();
    }
    assert AllWhole(SWAP_CONTEXTQ) by {
      Texts4();
      Texts7();
      NamesAreNames();
      Suffixes();
    }
  }

  lemma MiddleAreWhole()
    ensures AllWhole(SWAP_UNIT) && AllWhole(MAKE_SNIPPETS)
    ensures WholeLines(MIDDLE)
  {
    assert AllWhole(SWAP_UNIT) by {
      Texts4();
      Texts7();
      NamesAreNames();
      Suffixes();
    }
    assert AllWhole(MAKE_SNIPPETS) by {
      Texts3();
      Texts7();
      NamesAreNames();
      Suffixes();
    }
  }

  lemma SwapAreWhole()
    ensures AllWhole(SWAP_SNIPPET)
    ensures WholeLines(SWAP)
  {
    assert AllWhole(SWAP_SNIPPET) by {
      Texts4();
      Texts7();
      NamesAreNames();
      Suffixes();
    }
  }

  lemma ServicesAreWhole()
    ensures AllWhole(IMPORT) && AllWhole(RELOAD) && AllWhole(ENABLE) && AllWhole(RESTART)
    ensures WholeLines(SERVICES)
  {
    assert AllWhole(IMPORT) by {
      Texts2();
      Texts7();
      NamesAreNames();
      Suffixes();
    }
    assert AllWhole(RELOAD) by {
      Texts3();
      Texts7();
    }
    assert AllWhole(ENABLE) by {
      Texts3();
      Texts7();
      Texts8();
    }
    assert AllWhole(RESTART) by {
      Texts3();
      Texts8();
    }
  }

  lemma FailureAreWhole()
    ensures AllWhole(REPORT) && AllWhole(GIVE_UP) && AllWhole(END)
    ensures WholeLines(FAILURE)
  {
    assert AllWhole(REPORT) by {
      Texts7();
      Texts8();
    }
    assert AllWhole(GIVE_UP) by {
      Texts2();
      Texts8();
    }
    assert AllWhole(END) by {
      Texts8();
    }
  }

  lemma OutcomeAreWhole()
    ensures AllWhole(RELOAD_CADDY) && AllWhole(ACTIVE) && AllWhole(COMPLETE)
    ensures WholeLines(OUTCOME)
  {
    assert AllWhole(RELOAD_CADDY) by {
      Texts3();
      Texts8();
    }
    assert AllWhole(ACTIVE) by {
      Texts3();
      Texts8();
    }
    assert AllWhole(COMPLETE) by {
      Texts2();
      Texts9();
    }
  }

  lemma FixedAreOrdinary(f: Fields)
    ensures AllOrdinary(FixedOf(f))
  {
    GuardIsOrdinary();
    StartAreWhole();
    TrappingAreWhole();
    ChecksAreWhole();
    AccountsAreWhole();
    BinariesAreWhole();
    MiddleAreWhole();
    SwapAreWhole();
    ServicesAreWhole();
    FailureAreWhole();
    OutcomeAreWhole();
    LinesAreOrdinary(START);
    LinesAreOrdinary(TRAPPING);
    LinesAreOrdinary(CHECKS);
    LinesAreOrdinary(ACCOUNTS);
    LinesAreOrdinary(BINARIES);
    LinesAreOrdinary(MIDDLE);
    LinesAreOrdinary(SWAP);
    LinesAreOrdinary(SERVICES);
    LinesAreOrdinary(FAILURE);
    LinesAreOrdinary(OUTCOME);
  }

  /** A shell that reads the script BootstrapScript returns finds both documents in it and works with exactly the
      fields it was generated from. */
  lemma BootstrapScriptRoundTrip(f: Fields, parents: set<string>)
    requires Printable(f)
    ensures ReadMeaning(ScriptText(f, FixedOf(f)), parents) ==
            Some((ConfigOf(f, parents), Bootstrap.Stage(f.serverSource, f.contextqSource)))
  {
    FixedAreOrdinary(f);
    ScriptRoundTrip(f, FixedOf(f), parents);
  }
}
