/** What the lines of the bootstrap script do, as a shell that reads the text runs them: words are split and
    expanded, commands are carried out on the host, and the first that fails ends the run. */
module ScriptRun {
  import opened Text
  import opened Shell
  import opened Script
  import opened ScriptReader
  import opened ScriptLines
  import Bootstrap

  type Host = Bootstrap.Host
  type Config = Bootstrap.Config

  // ---- Words ----

  /** Field splitting at blanks outside quotes; the quotes stay. An escape outside single quotes is not read. */
  function SplitFrom(quoting: Quoting, acc: string, line: string): Option<seq<string>>
    decreases |line|
  {
    if line == "" then (if quoting == Bare then Some(if acc == "" then [] else [acc]) else None)
    else
      var c, rest := line[0], line[1..];
      match quoting
      case Bare =>
        if c == ' ' then
          match SplitFrom(Bare, "", rest)
          case None => None
          case Some(more) => Some((if acc == "" then [] else [acc]) + more)
        else if c == '\\' then None
        else SplitFrom(if c == '\'' then Single else if c == '"' then Double else Bare, acc + [c], rest)
      case Single => SplitFrom(if c == '\'' then Bare else Single, acc + [c], rest)
      case Double => if c == '\\' then None else SplitFrom(if c == '"' then Bare else Double, acc + [c], rest)
      case _ => None
  }

  function SplitLine(line: string): Option<seq<string>> {
    SplitFrom(Bare, "", line)
  }

  predicate Unsplit(t: string) {
    forall i :: 0 <= i < |t| ==> t[i] != ' ' && t[i] != '\'' && t[i] != '"' && t[i] != '\\'
  }

  lemma {:induction false} SplitBare(acc: string, t: string, rest: string)
    requires Unsplit(t)
    ensures SplitFrom(Bare, acc, t + rest) == SplitFrom(Bare, acc + t, rest)
    decreases t
  {
    if t == "" {
      assert t + rest == rest && acc + t == acc;
    } else {
      assert (t + rest)[1..] == t[1..] + rest;
      SplitBare(acc + [t[0]], t[1..], rest);
      assert acc + [t[0]] + t[1..] == acc + t;
    }
  }

  lemma {:induction false} SplitSingle(acc: string, t: string, rest: string)
    requires SafeQuoted(t)
    ensures SplitFrom(Single, acc, t + (['\''] + rest)) == SplitFrom(Bare, acc + t + ['\''], rest)
    decreases t
  {
    var s := t + (['\''] + rest);
    if t == "" {
      assert s[1..] == rest && acc + t == acc;
    } else {
      assert s[1..] == t[1..] + (['\''] + rest);
      SplitSingle(acc + [t[0]], t[1..], rest);
      assert acc + [t[0]] + t[1..] == acc + t;
    }
  }

  lemma {:induction false} SplitDouble(acc: string, t: string, rest: string)
    requires SafeText(t)
    ensures SplitFrom(Double, acc, t + (['"'] + rest)) == SplitFrom(Bare, acc + t + ['"'], rest)
    decreases t
  {
    var s := t + (['"'] + rest);
    if t == "" {
      assert s[1..] == rest && acc + t == acc;
    } else {
      assert s[1..] == t[1..] + (['"'] + rest);
      SplitDouble(acc + [t[0]], t[1..], rest);
      assert acc + [t[0]] + t[1..] == acc + t;
    }
  }

  lemma SplitQuoted(t: string, rest: string)
    requires SafeText(t)
    ensures SplitFrom(Bare, "", ['"'] + t + ['"'] + rest) == SplitFrom(Bare, ['"'] + t + ['"'], rest)
  {
    var s := ['"'] + t + ['"'] + rest;
    assert s[1..] == t + (['"'] + rest);
    SplitDouble(['"'], t, rest);
    assert "" + ['"'] == ['"'];
  }

  lemma SplitWord(w: Spelling, rest: string)
    requires Whole(w)
    ensures SplitFrom(Bare, "", WordText(w) + rest) == SplitFrom(Bare, WordText(w), rest)
    ensures WordText(w) != ""
  {
    match w
    case Lit(t) =>
      SplitBare("", t, rest);
      assert "" + t == t;
    case Q1(t) =>
      var s := WordText(w) + rest;
      assert s[1..] == t + (['\''] + rest);
      SplitSingle(['\''], t, rest);
      assert "" + ['\''] == ['\''];
    case Q2(t) => SplitQuoted(t, rest);
    case Var(name, suffix) =>
      VariableText(name, suffix);
      SplitQuoted(['$'] + name + suffix, rest);
  }

  function WordTexts(words: seq<Spelling>): seq<string> {
    seq(|words|, i requires 0 <= i < |words| => WordText(words[i]))
  }

  lemma SplitCons(w: Spelling, more: string)
    requires Whole(w)
    ensures SplitFrom(Bare, "", WordText(w) + ([' '] + more)) ==
            match SplitFrom(Bare, "", more) case None => None case Some(texts) => Some([WordText(w)] + texts)
  {
    SplitWord(w, [' '] + more);
    assert ([' '] + more)[1..] == more;
  }

  lemma {:induction false} SplitSpelled(words: seq<Spelling>)
    requires AllWhole(words)
    ensures SplitLine(Spelled(words)) == Some(WordTexts(words))
    decreases |words|
  {
    if words != [] {
      assert words[0] in words;
      if |words| == 1 {
        SplitWord(words[0], "");
        assert WordText(words[0]) + "" == WordText(words[0]);
        assert WordTexts(words) == [WordText(words[0])];
      } else {
        SplitCons(words[0], Spelled(words[1..]));
        SplitSpelled(words[1..]);
        assert WordTexts(words) == [WordText(words[0])] + WordTexts(words[1..]);
      }
    }
  }

  lemma {:induction false} SplitIndented(n: nat, text: string)
    ensures SplitLine(Blanks(n) + text) == SplitLine(text)
    decreases n
  {
    if n == 0 {
      assert Blanks(0) + text == text;
    } else {
      assert (Blanks(n) + text)[1..] == Blanks(n - 1) + text;
      SplitIndented(n - 1, text);
      if SplitLine(text).Some? {
        assert [] + SplitLine(text).value == SplitLine(text).value;
      }
    }
  }

  lemma SplitText(l: FixedLine)
    requires AllWhole(l.words)
    ensures SplitLine(LineText(l)) == Some(WordTexts(l.words))
  {
    SplitIndented(l.indent, Spelled(l.words));
    SplitSpelled(l.words);
  }

  // ---- Tokens ----

  /** Quiet is a redirection of a command's messages; Here opens a document; Bad is not understood. */
  datatype Token = Arg(text: string) | Or | Quiet | AppendTo | To | Here | Bad

  predicate IsOperator(raw: string) {
    raw != "" && (raw[0] == '|' || raw[0] == '>' || raw[0] == '<' || (|raw| >= 2 && raw[0] == '2' && raw[1] == '>'))
  }

  const NO_OUTPUT: string := ">/dev/null"
  const NO_ERRORS: string := "2>/dev/null"
  const ERRORS_TOO: string := "2>&1"

  function OperatorToken(raw: string): Token {
    if raw == ['|', '|'] then Or
    else if raw == ['>', '>'] then AppendTo
    else if raw == ['>'] then To
    else if raw == NO_OUTPUT || raw == NO_ERRORS || raw == ERRORS_TOO then Quiet
    else if |raw| > 2 && raw[0] == '<' && raw[1] == '<' then Here
    else Bad
  }

  function NameLength(s: string): (n: nat)
    ensures n <= |s|
  {
    if s == "" || !NameChar(s[0]) then 0 else 1 + NameLength(s[1..])
  }

  /** Parameter expansion between double quotes. */
  function Expanded(env: map<string, string>, t: string): Option<string>
    decreases |t|
  {
    if t == "" then Some("")
    else if t[0] == '$' then
      var n := NameLength(t[1..]);
      var name, rest := t[1..1 + n], t[1 + n..];
      if name !in env then None
      else
        match Expanded(env, rest)
        case None => None
        case Some(more) => Some(env[name] + more)
    else
      match Expanded(env, t[1..])
      case None => None
      case Some(more) => Some([t[0]] + more)
  }

  function TokenOf(env: map<string, string>, raw: string): Token {
    if raw == "" then Bad
    else if IsOperator(raw) then OperatorToken(raw)
    else if raw[0] == '\'' then (if |raw| >= 2 && raw[|raw| - 1] == '\'' then Arg(raw[1..|raw| - 1]) else Bad)
    else if raw[0] == '"' then
      if |raw| >= 2 && raw[|raw| - 1] == '"' && Expanded(env, raw[1..|raw| - 1]).Some?
      then Arg(Expanded(env, raw[1..|raw| - 1]).value) else Bad
    else if '$' in raw then Bad
    else Arg(raw)
  }

  function Tokens(env: map<string, string>, raws: seq<string>): seq<Token> {
    seq(|raws|, i requires 0 <= i < |raws| => TokenOf(env, raws[i]))
  }

  /** What a word of the script comes to. */
  function Meant(env: map<string, string>, w: Spelling): Token {
    match w
    case Lit(t) => if IsOperator(t) then OperatorToken(t) else Arg(t)
    case Q1(t) => Arg(t)
    case Q2(_) => TokenOf(env, WordText(w))
    case Var(name, suffix) => if name in env then Arg(env[name] + suffix) else Bad
  }

  lemma {:induction false} NameEnds(name: string, suffix: string)
    requires forall i :: 0 <= i < |name| ==> NameChar(name[i])
    requires suffix != "" ==> !NameChar(suffix[0])
    ensures NameLength(name + suffix) == |name|
    decreases name
  {
    if name == "" {
      assert name + suffix == suffix;
    } else {
      assert (name + suffix)[1..] == name[1..] + suffix;
      NameEnds(name[1..], suffix);
    }
  }

  lemma {:induction false} ExpandedPlain(env: map<string, string>, t: string)
    requires forall i :: 0 <= i < |t| ==> t[i] != '$'
    ensures Expanded(env, t) == Some(t)
    decreases t
  {
    if t != "" {
      ExpandedPlain(env, t[1..]);
      assert [t[0]] + t[1..] == t;
    }
  }

  lemma ExpandedVariable(env: map<string, string>, name: string, suffix: string)
    requires IsName(name) && Suffix(suffix)
    ensures Expanded(env, ['$'] + name + suffix) == if name in env then Some(env[name] + suffix) else None
  {
    var t := ['$'] + name + suffix;
    assert t[1..] == name + suffix;
    NameEnds(name, suffix);
    assert t[1..1 + |name|] == name && t[1 + |name|..] == suffix;
    ExpandedPlain(env, suffix);
  }

  lemma TokenMeant(env: map<string, string>, w: Spelling)
    requires Whole(w)
    ensures TokenOf(env, WordText(w)) == Meant(env, w)
  {
    match w
    case Lit(t) => assert forall i :: 0 <= i < |t| ==> t[i] != '$';
    case Q1(t) => assert WordText(w)[1..|WordText(w)| - 1] == t;
    case Q2(_) =>
    case Var(name, suffix) =>
      assert WordText(w)[1..|WordText(w)| - 1] == ['$'] + name + suffix;
      ExpandedVariable(env, name, suffix);
  }

  function MeantAll(env: map<string, string>, words: seq<Spelling>): seq<Token> {
    seq(|words|, i requires 0 <= i < |words| => Meant(env, words[i]))
  }

  lemma TokensMeant(env: map<string, string>, words: seq<Spelling>)
    requires AllWhole(words)
    ensures Tokens(env, WordTexts(words)) == MeantAll(env, words)
  {
    forall i | 0 <= i < |words| ensures TokenOf(env, WordTexts(words)[i]) == Meant(env, words[i]) {
      TokenMeant(env, words[i]);
    }
  }

  // ---- Commands ----

  datatype Result = Done(host: Host) | Failed | Unknown

  const SERVICE: string := "contextq-server.service"

  function GetentCommand(w: seq<string>, h: Host): Result {
    if |w| == 3 && w[1] == "group" then (if w[2] in h.groups then Done(h) else Failed) else Unknown
  }

  function GroupaddCommand(w: seq<string>, h: Host): Result {
    if |w| == 3 && w[1] == "--system" then Done(h.(groups := h.groups + {w[2]})) else Unknown
  }

  function IdCommand(w: seq<string>, h: Host): Result {
    if |w| == 2 then (if w[1] in h.users then Done(h) else Failed) else Unknown
  }

  /** A user is made in a group that is there. */
  function UseraddCommand(w: seq<string>, h: Host): Result {
    if |w| == 10 && w[1] == "--system" && w[2] == "--gid" && w[4] == "--home-dir" && w[6] == "--no-create-home" && w[7] == "--shell"
    then (if w[3] in h.groups then Done(h.(users := h.users + {w[9]})) else Failed)
    else Unknown
  }

  /** install makes a directory, for an owner who is there; or it copies a file that is there, and makes the
      directories above the copy. */
  function InstallCommand(c: Config, w: seq<string>, h: Host): Result {
    if |w| == 9 && w[1] == "-d" && w[2] == "-m" && w[4] == "-o" && w[6] == "-g"
    then (if w[5] in h.users && w[7] in h.groups then Done(h.(dirs := h.dirs + {w[8]})) else Failed)
    else if |w| == 5 && w[1] == "-d" && w[2] == "-m" then Done(h.(dirs := h.dirs + {w[4]}))
    else if |w| == 6 && w[1] == "-D" && w[2] == "-m"
    then (if w[4] in h.files then Done(h.(files := h.files[w[5] := h.files[w[4]]], dirs := h.dirs + c.parents)) else Failed)
    else Unknown
  }

  function MvCommand(w: seq<string>, h: Host): Result {
    if |w| == 4 && w[1] == "-f"
    then (if w[2] in h.files then Done(h.(files := (h.files - {w[2]})[w[3] := h.files[w[2]]])) else Failed)
    else Unknown
  }

  function GrepCommand(w: seq<string>, h: Host): Result {
    if |w| == 4 && w[1] == "-qF"
    then (if w[3] in h.files && Bootstrap.Occurs(w[2], h.files[w[3]]) then Done(h) else Failed)
    else Unknown
  }

  /** systemd reads the service's unit from its own path, and Caddy its Caddyfile and the snippet. */
  function SystemctlCommand(c: Config, w: seq<string>, h: Host): Result {
    var s := h.services;
    if |w| == 2 && w[1] == "daemon-reload" then Done(h.(services := s.(loadedUnit := Some(Bootstrap.Read(h, c.unitPath)))))
    else if |w| == 3 && w[1] == "enable" && w[2] == SERVICE then Done(h.(services := s.(enabled := true)))
    else if |w| == 3 && w[1] == "restart" && w[2] == SERVICE then
      Done(h.(services := s.(running :=
        Some((if s.loadedUnit.Some? then s.loadedUnit.value else "", Bootstrap.Read(h, c.serverBin))))))
    else if |w| == 3 && w[1] == "reload" && w[2] == "caddy" then
      Done(h.(services := s.(caddy := Some((Bootstrap.Read(h, c.caddyfile), Bootstrap.Read(h, c.snippetPath))))))
    else if |w| == 4 && w[1] == "is-active" && w[2] == "--quiet" && w[3] == SERVICE
    then (if s.running.Some? then Done(h) else Failed)
    else Unknown
  }

  function Simple(c: Config, w: seq<string>, h: Host): Result {
    if |w| == 0 then Unknown
    else if w[0] == "getent" then GetentCommand(w, h)
    else if w[0] == "groupadd" then GroupaddCommand(w, h)
    else if w[0] == "id" then IdCommand(w, h)
    else if w[0] == "useradd" then UseraddCommand(w, h)
    else if w[0] == "install" then InstallCommand(c, w, h)
    else if w[0] == "mv" then MvCommand(w, h)
    else if w[0] == "grep" then GrepCommand(w, h)
    else if w[0] == "systemctl" then SystemctlCommand(c, w, h)
    else Unknown
  }

  /** printf for one argument: a format of text, newlines and places for the argument. */
  function Printf(format: string, arg: string): string
    decreases |format|
  {
    if format == "" then ""
    else if |format| >= 2 && format[0] == '\\' && format[1] == 'n' then ['\n'] + Printf(format[2..], arg)
    else if |format| >= 2 && format[0] == '%' && format[1] == 's' then arg + Printf(format[2..], arg)
    else [format[0]] + Printf(format[1..], arg)
  }

  /** What a command writes to its output. */
  function OutputOf(w: seq<string>, input: Option<string>): Option<string> {
    if w == ["cat"] then input
    else if |w| == 3 && w[0] == "printf" then Some(Printf(w[1], w[2]))
    else None
  }

  function StripQuiet(tokens: seq<Token>): seq<Token> {
    if tokens != [] && tokens[|tokens| - 1] == Quiet then StripQuiet(tokens[..|tokens| - 1]) else tokens
  }

  predicate AllArgs(tokens: seq<Token>) {
    forall t :: t in tokens ==> t.Arg?
  }

  function Args(tokens: seq<Token>): seq<string>
    requires AllArgs(tokens)
  {
    seq(|tokens|, i requires 0 <= i < |tokens| => assert tokens[i] in tokens; tokens[i].text)
  }

  /** One command with its redirections. */
  function OneCommand(c: Config, tokens: seq<Token>, input: Option<string>, h: Host): Result {
    var t := StripQuiet(tokens);
    var n := |t|;
    if AllArgs(t) then Simple(c, Args(t), h)
    else if n >= 2 && t[n - 2] == AppendTo && t[n - 1].Arg? && AllArgs(t[..n - 2]) then
      match OutputOf(Args(t[..n - 2]), None)
      case None => Unknown
      case Some(text) => Done(Bootstrap.WriteFile(h, t[n - 1].text, Bootstrap.Read(h, t[n - 1].text) + text))
    else if n >= 3 && t[n - 3] == To && t[n - 2].Arg? && t[n - 1] == Here && AllArgs(t[..n - 3]) then
      match OutputOf(Args(t[..n - 3]), input)
      case None => Unknown
      case Some(text) => Done(Bootstrap.WriteFile(h, t[n - 2].text, text))
    else Unknown
  }

  function OrAt(tokens: seq<Token>): (i: nat)
    ensures i <= |tokens|
  {
    if tokens == [] || tokens[0] == Or then 0 else 1 + OrAt(tokens[1..])
  }

  /** A command, or two of which the second runs if the first fails. */
  function Perform(c: Config, tokens: seq<Token>, input: Option<string>, h: Host): Result {
    var i := OrAt(tokens);
    if i == |tokens| then OneCommand(c, tokens, input, h)
    else
      match OneCommand(c, tokens[..i], input, h)
      case Done(h') => Done(h')
      case Unknown => Unknown
      case Failed => if Or in tokens[i + 1..] then Unknown else OneCommand(c, tokens[i + 1..], input, h)
  }

  // ---- Running a script ----

  /** What a run has come to: the assignments it has made, and the host; strict is what set -eu asks for, trap the
      command to run at the exit, and skipping is true inside a branch that is not taken. */
  datatype State = State(
    made: seq<(string, string)>, host: Host, strict: bool, trap: Option<string>, skipping: bool)

  datatype Progress = Going(state: State) | Exited(state: State) | Lost

  function Continue(s: State, r: Result): Progress {
    match r
    case Done(host) => Going(s.(host := host))
    case Failed => if s.strict then Exited(s) else Going(s)
    case Unknown => Lost
  }

  function Variables(s: State): map<string, string> {
    Environment(s.made)
  }

  /** Comments, messages, and the loop that looks for the commands a run needs: it is presumed to find them. */
  predicate Passed(first: string) {
    first == "" || first[0] == '#' || first == "for" || first == "command" || first == "done" || first == "echo"
  }

  /** || { ...; exit 1; } from the i-th word on. */
  predicate OrExit(raws: seq<string>, i: nat) {
    var n := |raws|;
    n >= i + 5 && raws[i] == "||" && raws[i + 1] == "{" && raws[n - 3] == "exit" && raws[n - 2] == "1;" && raws[n - 1] == "}"
  }

  /** A test: whether a file is there, or whether root runs the script, which is presumed. */
  function Test(s: State, raws: seq<string>): Progress {
    if |raws| > 4 && raws[1] == "-f" && raws[3] == "]" && OrExit(raws, 4) then
      match TokenOf(Variables(s), raws[2])
      case Arg(path) => if path in s.host.files then Going(s) else Exited(s)
      case _ => Lost
    else if |raws| > 5 && raws[1] == "\"$(id -u)\"" && raws[2] == "-eq" && raws[3] == "0" && raws[4] == "]" && OrExit(raws, 5)
    then Going(s)
    else Lost
  }

  /** The command to run at the exit. */
  function Trap(s: State, raws: seq<string>): Progress {
    if |raws| == 3 && raws[2] == "EXIT" then
      match TokenOf(Variables(s), raws[1])
      case Arg(action) => Going(s.(trap := Some(action)))
      case _ => Lost
    else Lost
  }

  /** A line of words. */
  function RunWords(c: Config, s: State, raws: seq<string>): Progress {
    var first := if raws == [] then "" else raws[0];
    if s.skipping then Going(if first == "fi" then s.(skipping := false) else s)
    else if Passed(first) then Going(s)
    else if first == "set" then (if |raws| == 2 && raws[1] == "-eu" then Going(s.(strict := true)) else Lost)
    else if first == "[" then Test(s, raws)
    else if first == "trap" then Trap(s, raws)
    else if first == "exit" then Exited(s)
    else if first == "printf" && raws[|raws| - 1] == ">&2" then Going(s)
    else Continue(s, Perform(c, Tokens(Variables(s), raws), None, s.host))
  }

  /** The one condition of the script: its branch is taken when Caddy refuses its files. */
  const GUARD_LINE: string :=
    "if ! CADDY_OUTPUT" + ("=\"" + ("$(caddy validate --config " + ("\"$CADDYFILE\"" + (" 2>&1)" + "\"; then"))))

  function RunItem(c: Config, valid: bool, s: State, item: Heard): Progress {
    match item
    case Document(opening, body) => (
      match SplitLine(opening)
      case None => Lost
      case Some(raws) =>
        if s.skipping then Going(s) else Continue(s, Perform(c, Tokens(Variables(s), raws), Some(body), s.host)))
    case Command(text) =>
      if !s.skipping && AssignedBy(item) != [] then Going(s.(made := s.made + AssignedBy(item)))
      else if !s.skipping && text == GUARD_LINE then Going(s.(skipping := valid))
      else
        match SplitLine(text)
        case None => Lost
        case Some(raws) => RunWords(c, s, raws)
  }

  function RunItems(c: Config, valid: bool, p: Progress, items: seq<Heard>): Progress
    decreases items
  {
    if items == [] || !p.Going? then p else RunItems(c, valid, RunItem(c, valid, p.state, items[0]), items[1..])
  }

  datatype Outcome = Ended(status: nat, host: Host) | NotUnderstood

  /** rm -rf: the file or directory, and everything below it. */
  predicate Under(d: string, p: string) {
    p == d || d + "/" <= p
  }

  function Removed(d: string, h: Host): Host {
    h.(files := map p | p in h.files && !Under(d, p) :: h.files[p], dirs := set p | p in h.dirs && !Under(d, p))
  }

  function AtExit(status: nat, s: State): Outcome {
    match s.trap
    case None => Ended(status, s.host)
    case Some(action) =>
      match SplitLine(action)
      case None => NotUnderstood
      case Some(raws) =>
        var t := Tokens(Variables(s), raws);
        if |t| == 3 && t[0] == Arg("rm") && t[1] == Arg("-rf") && t[2].Arg? then Ended(status, Removed(t[2].text, s.host))
        else NotUnderstood
  }

  function Finish(p: Progress): Outcome {
    match p
    case Going(s) => if s.skipping then NotUnderstood else AtExit(0, s)
    case Exited(s) => AtExit(1, s)
    case Lost => NotUnderstood
  }

  /** A run of the text from the first line to the last; valid is Caddy's answer about its files. */
  function RunText(c: Config, valid: bool, text: string, h: Host): Outcome {
    match ReadScript(text)
    case None => NotUnderstood
    case Some(items) => Finish(RunItems(c, valid, Going(State([], h, false, None, false)), items))
  }
}
