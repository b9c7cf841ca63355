/** The quoting that builds remote command lines, and a lexer for the shell language that reads them.
    The lexer follows sections 2.2.1 (escape character), 2.2.2 (single quotes) and 2.3 (token
    recognition) of the POSIX.1-2017 Shell Command Language. It gives up on double quotes and on
    the characters that start an expansion. */
module Shell {
  import opened Text

  // ---- Printer ----

  /** strings.ReplaceAll for a one-character pattern. */
  function ReplaceChar(s: string, c: char, with: string): string {
    if s == "" then "" else (if s[0] == c then with else [s[0]]) + ReplaceChar(s[1..], c, with)
  }

  /** A single quote, written inside a quoted value: close, escaped quote, open again. */
  const ESCAPED: string := ['\'', '\\', '\'', '\'']

  function Escaped(value: string): string {
    ReplaceChar(value, '\'', ESCAPED)
  }

  function Quote(value: string): string {
    ['\''] + Escaped(value) + ['\'']
  }

  function Quotes(args: seq<string>): seq<string> {
    seq(|args|, i requires 0 <= i < |args| => Quote(args[i]))
  }

  /** The text ShellCommand builds. */
  function Command(args: seq<string>): string {
    Join(Quotes(args), " ")
  }

  method ShellCommand(args: seq<string>) returns (command: string)
    ensures command == Command(args)
    ensures (forall a :: a in args ==> '\0' !in a) ==> Lex(command) == Some(QuotedWords(args))
  {
    var quoted := new string[|args|](_ => "");
    for i := 0 to |args|
      invariant forall j :: 0 <= j < i ==> quoted[j] == Quote(args[j])
    {
      quoted[i] := Quote(args[i]);
    }
    assert quoted[..] == Quotes(args);
    command := Join(quoted[..], " ");
    CommandRoundTrip(args);
  }

  // ---- Lexer ----

  /** A word's quoteAt is None when no character of it is quoted, and otherwise the number of
      characters before the first quotation. */
  datatype ShellToken =
    | Word(text: string, quoteAt: Option<nat>)
    | Operator(text: string)
    | Newline

  datatype Mode =
    | Blank
    | InWord(text: string, quoteAt: Option<nat>)
    | InQuote(text: string, quoteAt: Option<nat>)
    | Escape(inWord: bool, text: string, quoteAt: Option<nat>)
    | InOperator(text: string)
    | Comment

  predicate IsBlank(c: char) { c == ' ' || c == '\t' }

  /** Double quotes and the characters that start an expansion. */
  predicate Unsupported(c: char) { c == '"' || c == '$' || c == '`' }

  predicate StartsOperator(c: char) {
    c == '&' || c == '|' || c == ';' || c == '<' || c == '>' || c == '(' || c == ')'
  }

  /** Whether the text of an operator that is being read still is one with c added. */
  predicate ExtendsOperator(op: string, c: char) {
    if |op| == 1 then
      || (op[0] == c && (c == '&' || c == '|' || c == ';' || c == '<' || c == '>'))
      || (op[0] == '<' && (c == '&' || c == '>'))
      || (op[0] == '>' && (c == '&' || c == '|'))
    else op == ['<', '<'] && c == '-'
  }

  function QuotedHere(text: string, quoteAt: Option<nat>): Option<nat> {
    if quoteAt.None? then Some(|text|) else quoteAt
  }

  /** Rules 4 to 8, 10 and 11 of section 2.3, when no token is being read. */
  function Begin(out: seq<ShellToken>, c: char): Option<(Mode, seq<ShellToken>)> {
    if c == '\'' then Some((InQuote("", Some(0)), out))
    else if c == '\\' then Some((Escape(false, "", None), out))
    else if Unsupported(c) then None
    else if StartsOperator(c) then Some((InOperator([c]), out))
    else if c == '\n' then Some((Blank, out + [Newline]))
    else if IsBlank(c) then Some((Blank, out))
    else if c == '#' then Some((Comment, out))
    else Some((InWord([c], None), out))
  }

  function Step(mode: Mode, out: seq<ShellToken>, c: char): Option<(Mode, seq<ShellToken>)> {
    match mode
    case Blank => Begin(out, c)
    case Comment => if c == '\n' then Some((Blank, out + [Newline])) else Some((Comment, out))
    case InOperator(op) =>
      if ExtendsOperator(op, c) then Some((InOperator(op + [c]), out)) else Begin(out + [Operator(op)], c)
    case InQuote(t, at) => if c == '\'' then Some((InWord(t, at), out)) else Some((InQuote(t + [c], at), out))
    case Escape(inWord, t, at) =>
      if c == '\n' then Some((if inWord then InWord(t, at) else Blank, out))
      else Some((InWord(t + [c], QuotedHere(t, at)), out))
    case InWord(t, at) =>
      if c == '\'' then Some((InQuote(t, QuotedHere(t, at)), out))
      else if c == '\\' then Some((Escape(true, t, at), out))
      else if Unsupported(c) then None
      else if StartsOperator(c) then Some((InOperator([c]), out + [Word(t, at)]))
      else if c == '\n' then Some((Blank, out + [Word(t, at), Newline]))
      else if IsBlank(c) then Some((Blank, out + [Word(t, at)]))
      else Some((InWord(t + [c], at), out))
  }

  function Finish(mode: Mode, out: seq<ShellToken>): Option<seq<ShellToken>> {
    match mode
    case Blank => Some(out)
    case Comment => Some(out)
    case InOperator(op) => Some(out + [Operator(op)])
    case InWord(t, at) => Some(out + [Word(t, at)])
    case InQuote(_, _) => None
    case Escape(_, _, _) => None
  }

  function Run(mode: Mode, out: seq<ShellToken>, s: string): Option<seq<ShellToken>>
    decreases |s|
  {
    if s == "" then Finish(mode, out)
    else
      match Step(mode, out, s[0])
      case None => None
      case Some(next) => Run(next.0, next.1, s[1..])
  }

  /** The tokens of a command line; a command line cannot hold NUL. */
  function Lex(s: string): Option<seq<ShellToken>> {
    if '\0' in s then None else Run(Blank, [], s)
  }

  // ---- Round trip ----

  /** Words that are quoted from their first character on. Such a word is never a reserved word, an
      assignment or an alias, and is not expanded. */
  function QuotedWords(args: seq<string>): (words: seq<ShellToken>)
    ensures |words| == |args|
  {
    seq(|args|, i requires 0 <= i < |args| => Word(args[i], Some(0)))
  }

  lemma RunStep(mode: Mode, out: seq<ShellToken>, c: char, rest: string)
    ensures Run(mode, out, [c] + rest) ==
            match Step(mode, out, c) case None => None case Some(next) => Run(next.0, next.1, rest)
  {
    assert ([c] + rest)[1..] == rest;
  }

  lemma RunEscapedQuote(t: string, at: Option<nat>, out: seq<ShellToken>, rest: string)
    requires at.Some?
    ensures Run(InQuote(t, at), out, ESCAPED + rest) == Run(InQuote(t + ['\''], at), out, rest)
  {
    var r3 := ['\''] + rest;
    var r2 := ['\''] + r3;
    var r1 := ['\\'] + r2;
    assert ESCAPED + rest == ['\''] + r1;
    RunStep(InQuote(t, at), out, '\'', r1);
    RunStep(InWord(t, at), out, '\\', r2);
    RunStep(Escape(true, t, at), out, '\'', r3);
    RunStep(InWord(t + ['\''], at), out, '\'', rest);
  }

  lemma {:induction false} RunQuoteBody(t: string, at: Option<nat>, out: seq<ShellToken>, v: string, rest: string)
    requires at.Some?
    ensures Run(InQuote(t, at), out, Escaped(v) + (['\''] + rest)) == Run(InWord(t + v, at), out, rest)
    decreases v
  {
    var tail := ['\''] + rest;
    if v == "" {
      RunStep(InQuote(t, at), out, '\'', rest);
      assert Escaped(v) + tail == tail;
      assert t + v == t;
    } else {
      var body := Escaped(v[1..]) + tail;
      assert t + v == (t + [v[0]]) + v[1..];
      RunQuoteBody(t + [v[0]], at, out, v[1..], rest);
      if v[0] == '\'' {
        assert Escaped(v) + tail == ESCAPED + body;
        RunEscapedQuote(t, at, out, body);
      } else {
        assert Escaped(v) + tail == [v[0]] + body;
        RunStep(InQuote(t, at), out, v[0], body);
      }
    }
  }

  /** A quoted value extends the word that is being read by exactly that value. */
  lemma RunQuote(t: string, at: Option<nat>, out: seq<ShellToken>, v: string, rest: string)
    ensures Run(InWord(t, at), out, Quote(v) + rest) == Run(InWord(t + v, QuotedHere(t, at)), out, rest)
  {
    var body := Escaped(v);
    assert Quote(v) + rest == ['\''] + (body + (['\''] + rest));
    RunStep(InWord(t, at), out, '\'', body + (['\''] + rest));
    RunQuoteBody(t, QuotedHere(t, at), out, v, rest);
  }

  lemma RunQuoteFirst(out: seq<ShellToken>, v: string, rest: string)
    ensures Run(Blank, out, Quote(v) + rest) == Run(InWord(v, Some(0)), out, rest)
  {
    var body := Escaped(v);
    assert Quote(v) + rest == ['\''] + (body + (['\''] + rest));
    RunStep(Blank, out, '\'', body + (['\''] + rest));
    RunQuoteBody("", Some(0), out, v, rest);
    assert "" + v == v;
  }

  lemma CommandSplit(args: seq<string>)
    requires |args| > 1
    ensures Command(args) == Command(args[..|args| - 1]) + " " + Quote(args[|args| - 1])
  {
    var q := Quotes(args);
    assert q[..|q| - 1] == Quotes(args[..|args| - 1]);
  }

  /** Where the lexer stands after a command: still reading its last word, or between words when it has none. */
  function EndMode(args: seq<string>): Mode {
    if args == [] then Blank else InWord(args[|args| - 1], Some(0))
  }

  function EndOut(out: seq<ShellToken>, args: seq<string>): seq<ShellToken> {
    if args == [] then out else out + QuotedWords(args[..|args| - 1])
  }

  lemma QuotedWordsSnoc(args: seq<string>, a: string)
    ensures QuotedWords(args + [a]) == QuotedWords(args) + [Word(a, Some(0))]
  {
  }

  lemma {:induction false} RunCommand(out: seq<ShellToken>, args: seq<string>, rest: string)
    ensures Run(Blank, out, Command(args) + rest) == Run(EndMode(args), EndOut(out, args), rest)
    decreases |args|
  {
    if args == [] {
      assert Command(args) + rest == rest;
    } else if |args| == 1 {
      assert Command(args) == Quote(args[0]);
      RunQuoteFirst(out, args[0], rest);
      assert out + QuotedWords(args[..0]) == out;
    } else {
      var n := |args| - 1;
      var last := Quote(args[n]) + rest;
      CommandSplit(args);
      assert Command(args) + rest == Command(args[..n]) + ([' '] + last);
      RunCommand(out, args[..n], [' '] + last);
      RunSpace(out, args[..n], last);
      RunQuoteFirst(out + QuotedWords(args[..n]), args[n], rest);
    }
  }

  /** The space behind a command ends its last word. */
  lemma RunSpace(out: seq<ShellToken>, args: seq<string>, rest: string)
    requires args != []
    ensures Run(EndMode(args), EndOut(out, args), [' '] + rest) == Run(Blank, out + QuotedWords(args), rest)
  {
    var n := |args| - 1;
    QuotedWordsSnoc(args[..n], args[n]);
    assert args[..n] + [args[n]] == args;
    assert out + QuotedWords(args[..n]) + [Word(args[n], Some(0))] == out + QuotedWords(args);
    RunStep(EndMode(args), EndOut(out, args), ' ', rest);
  }

  lemma FinishCommand(out: seq<ShellToken>, args: seq<string>)
    ensures Finish(EndMode(args), EndOut(out, args)) == Some(out + QuotedWords(args))
  {
    if args != [] {
      var n := |args| - 1;
      QuotedWordsSnoc(args[..n], args[n]);
      assert args[..n] + [args[n]] == args;
      assert out + QuotedWords(args[..n]) + [Word(args[n], Some(0))] == out + QuotedWords(args);
    } else {
      assert out + QuotedWords(args) == out;
    }
  }

  lemma EscapedMembers(s: string, c: char)
    requires c != '\'' && c != '\\'
    ensures c in Escaped(s) <==> c in s
  {
    if s != "" {
      EscapedMembers(s[1..], c);
      assert s == [s[0]] + s[1..];
    }
  }

  lemma {:induction false} CommandMembers(args: seq<string>)
    ensures '\0' in Command(args) <==> exists a :: a in args && '\0' in a
    decreases |args|
  {
    if |args| == 1 {
      EscapedMembers(args[0], '\0');
      assert Command(args) == Quote(args[0]);
    } else if |args| > 1 {
      var n := |args| - 1;
      CommandSplit(args);
      CommandMembers(args[..n]);
      EscapedMembers(args[n], '\0');
      assert args == args[..n] + [args[n]];
    }
  }

  /** The remote shell splits a command line into exactly the arguments it was built from. The line
      is unreadable when, and only when, an argument holds NUL. */
  lemma CommandRoundTrip(args: seq<string>)
    ensures Run(Blank, [], Command(args)) == Some(QuotedWords(args))
    ensures Lex(Command(args)) == if exists a :: a in args && '\0' in a then None else Some(QuotedWords(args))
  {
    RunCommand([], args, "");
    assert Command(args) + "" == Command(args);
    FinishCommand([], args);
    assert [] + QuotedWords(args) == QuotedWords(args);
    CommandMembers(args);
  }

  lemma CommandInjective(args: seq<string>, args': seq<string>)
    requires Command(args) == Command(args')
    ensures args == args'
  {
    CommandRoundTrip(args);
    CommandRoundTrip(args');
    var w, w' := QuotedWords(args), QuotedWords(args');
    assert forall i :: 0 <= i < |args| ==> w[i].text == args[i] && w'[i].text == args'[i];
  }

  // ---- Lists of commands ----

  function Commands(cmds: seq<seq<string>>): seq<string> {
    seq(|cmds|, i requires 0 <= i < |cmds| => Command(cmds[i]))
  }

  /** Several commands joined into one line. */
  function AndList(cmds: seq<seq<string>>): string {
    Join(Commands(cmds), " && ")
  }

  const AND := Operator(['&', '&'])

  function AndTokens(cmds: seq<seq<string>>): seq<ShellToken>
    requires cmds != []
  {
    var n := |cmds| - 1;
    if n == 0 then QuotedWords(cmds[0])
    else AndTokens(cmds[..n]) + [AND] + QuotedWords(cmds[n])
  }

  /** Parses tokens as a list of simple commands joined by &&. */
  function ParseAnd(tokens: seq<ShellToken>): seq<seq<ShellToken>> {
    if tokens == [] then [[]]
    else
      var n := |tokens| - 1;
      var init := ParseAnd(tokens[..n]);
      if tokens[n] == AND then init + [[]]
      else if init == [] then []
      else init[..|init| - 1] + [init[|init| - 1] + [tokens[n]]]
  }

  lemma RunAnd(out: seq<ShellToken>, args: seq<string>, rest: string)
    ensures Run(EndMode(args), EndOut(out, args), " && " + rest) == Run(Blank, out + QuotedWords(args) + [AND], rest)
  {
    var r3 := [' '] + rest;
    var r2 := ['&'] + r3;
    var r1 := ['&'] + r2;
    assert " && " + rest == [' '] + r1;
    FinishCommand(out, args);
    var done := out + QuotedWords(args);
    RunStep(EndMode(args), EndOut(out, args), ' ', r1);
    RunStep(Blank, done, '&', r2);
    RunStep(InOperator(['&']), done, '&', r3);
    assert ['&'] + ['&'] == ['&', '&'];
    RunStep(InOperator(['&', '&']), done, ' ', rest);
  }

  lemma AndListSplit(cmds: seq<seq<string>>, rest: string)
    requires |cmds| > 1
    ensures var n := |cmds| - 1;
            AndList(cmds) + rest == AndList(cmds[..n]) + (" && " + (Command(cmds[n]) + rest))
  {
    var c := Commands(cmds);
    assert c[..|c| - 1] == Commands(cmds[..|cmds| - 1]);
  }

  lemma {:induction false} RunAndList(cmds: seq<seq<string>>, rest: string)
    requires cmds != []
    ensures var n := |cmds| - 1;
            var out := if n == 0 then [] else AndTokens(cmds[..n]) + [AND];
            Run(Blank, [], AndList(cmds) + rest) == Run(EndMode(cmds[n]), EndOut(out, cmds[n]), rest)
    decreases |cmds|
  {
    var n := |cmds| - 1;
    if n == 0 {
      assert AndList(cmds) == Command(cmds[0]);
      RunCommand([], cmds[0], rest);
    } else {
      var init := cmds[..n];
      var tail := Command(cmds[n]) + rest;
      AndListSplit(cmds, rest);
      RunAndList(init, " && " + tail);
      var out := if n - 1 == 0 then [] else AndTokens(init[..n - 1]) + [AND];
      RunAnd(out, init[n - 1], tail);
      assert out + QuotedWords(init[n - 1]) == AndTokens(init);
      RunCommand(AndTokens(init) + [AND], cmds[n], rest);
    }
  }

  lemma {:induction false} ParseAndWords(tokens: seq<ShellToken>, args: seq<string>)
    ensures ParseAnd(tokens) != []
    ensures var p := ParseAnd(tokens);
            ParseAnd(tokens + QuotedWords(args)) == p[..|p| - 1] + [p[|p| - 1] + QuotedWords(args)]
    decreases |tokens| + |args|, |args|
  {
    ParseAndNotEmpty(tokens);
    var p := ParseAnd(tokens);
    if args == [] {
      assert tokens + QuotedWords(args) == tokens;
      assert p[|p| - 1] + QuotedWords(args) == p[|p| - 1];
    } else {
      var n := |args| - 1;
      QuotedWordsSnoc(args[..n], args[n]);
      assert args[..n] + [args[n]] == args;
      ParseAndWords(tokens, args[..n]);
      var all := tokens + QuotedWords(args);
      assert all[..|all| - 1] == tokens + QuotedWords(args[..n]);
      assert p[|p| - 1] + QuotedWords(args[..n]) + [Word(args[n], Some(0))] == p[|p| - 1] + QuotedWords(args);
    }
  }

  lemma ParseAndNotEmpty(tokens: seq<ShellToken>)
    ensures ParseAnd(tokens) != []
  {
  }

  function QuotedCommands(cmds: seq<seq<string>>): seq<seq<ShellToken>> {
    seq(|cmds|, i requires 0 <= i < |cmds| => QuotedWords(cmds[i]))
  }

  lemma ParseAndAppend(tokens: seq<ShellToken>, args: seq<string>)
    ensures ParseAnd(tokens + [AND] + QuotedWords(args)) == ParseAnd(tokens) + [QuotedWords(args)]
  {
    var t := tokens + [AND];
    assert t[..|t| - 1] == tokens;
    ParseAndWords(t, args);
    assert [] + QuotedWords(args) == QuotedWords(args);
    assert ParseAnd(t) == ParseAnd(tokens) + [[]];
    assert ParseAnd(t)[..|ParseAnd(t)| - 1] == ParseAnd(tokens);
  }

  lemma {:induction false} ParseAndTokens(cmds: seq<seq<string>>)
    requires cmds != []
    ensures ParseAnd(AndTokens(cmds)) == QuotedCommands(cmds)
    decreases |cmds|
  {
    var n := |cmds| - 1;
    if n == 0 {
      ParseAndWords([], cmds[0]);
      assert [] + QuotedWords(cmds[0]) == QuotedWords(cmds[0]);
      assert QuotedCommands(cmds) == [QuotedWords(cmds[0])];
    } else {
      ParseAndTokens(cmds[..n]);
      ParseAndAppend(AndTokens(cmds[..n]), cmds[n]);
      QuotedCommandsSnoc(cmds);
    }
  }

  lemma QuotedCommandsSnoc(cmds: seq<seq<string>>)
    requires cmds != []
    ensures var n := |cmds| - 1; QuotedCommands(cmds) == QuotedCommands(cmds[..n]) + [QuotedWords(cmds[n])]
  {
  }

  lemma {:induction false} AndListMembers(cmds: seq<seq<string>>)
    ensures '\0' in AndList(cmds) <==> exists c, a :: c in cmds && a in c && '\0' in a
    decreases |cmds|
  {
    if |cmds| == 1 {
      CommandMembers(cmds[0]);
      assert AndList(cmds) == Command(cmds[0]);
    } else if |cmds| > 1 {
      var n := |cmds| - 1;
      AndListSplit(cmds, "");
      assert AndList(cmds) + "" == AndList(cmds) && Command(cmds[n]) + "" == Command(cmds[n]);
      assert AndList(cmds) == AndList(cmds[..n]) + (" && " + Command(cmds[n]));
      AndListMembers(cmds[..n]);
      CommandMembers(cmds[n]);
      assert cmds == cmds[..n] + [cmds[n]];
    }
  }

  /** Commands joined with && are read back as the same list of commands, word for word; the line is
      unreadable when, and only when, an argument holds NUL. */
  lemma AndListRoundTrip(cmds: seq<seq<string>>)
    requires cmds != []
    ensures Lex(AndList(cmds)).None? <==> exists c, a :: c in cmds && a in c && '\0' in a
    ensures Lex(AndList(cmds)).Some? ==> ParseAnd(Lex(AndList(cmds)).value) == QuotedCommands(cmds)
  {
    var n := |cmds| - 1;
    AndListMembers(cmds);
    RunAndList(cmds, "");
    assert AndList(cmds) + "" == AndList(cmds);
    var out := if n == 0 then [] else AndTokens(cmds[..n]) + [AND];
    FinishCommand(out, cmds[n]);
    assert out + QuotedWords(cmds[n]) == AndTokens(cmds);
    ParseAndTokens(cmds);
  }

  // ---- Assignments ----

  predicate IsName(s: string) {
    && s != "" && !('0' <= s[0] <= '9')
    && forall i :: 0 <= i < |s| ==> 'A' <= s[i] <= 'Z' || 'a' <= s[i] <= 'z' || '0' <= s[i] <= '9' || s[i] == '_'
  }

  /** The variable and value of an assignment word: the name and the equals sign must not be quoted. */
  function AsAssignment(token: ShellToken): Option<(string, string)> {
    if !token.Word? then None else
      var i := IndexOf(token.text, '=');
      if i < |token.text| && (token.quoteAt.None? || i < token.quoteAt.value) && IsName(token.text[..i])
      then Some((token.text[..i], token.text[i + 1..])) else None
  }

  lemma {:induction false} RunName(out: seq<ShellToken>, t: string, name: string, rest: string)
    requires t != "" && forall i :: 0 <= i < |name| ==> Plain(name[i])
    ensures Run(InWord(t, None), out, name + rest) == Run(InWord(t + name, None), out, rest)
    decreases name
  {
    if name == "" {
      assert name + rest == rest && t + name == t;
    } else {
      assert name + rest == [name[0]] + (name[1..] + rest);
      RunStep(InWord(t, None), out, name[0], name[1..] + rest);
      RunName(out, t + [name[0]], name[1..], rest);
      assert t + [name[0]] + name[1..] == t + name;
    }
  }

  predicate Plain(c: char) {
    'A' <= c <= 'Z' || 'a' <= c <= 'z' || '0' <= c <= '9' || c == '_' || c == '='
  }

  lemma NameIsPlain(out: seq<ShellToken>, name: string)
    requires IsName(name)
    ensures Begin(out, name[0]) == Some((InWord([name[0]], None), out))
    ensures forall i :: 0 <= i < |name| ==> Plain(name[i])
    ensures '=' !in name
  {
    assert forall i :: 0 <= i < |name| ==> name[i] != '=';
  }

  lemma AssignmentRead(name: string, value: string)
    requires IsName(name)
    ensures AsAssignment(Word(name + ['='] + value, Some(|name| + 1))) == Some((name, value))
  {
    NameIsPlain([], name);
    IndexOfSeparator(name, '=', value);
    var text := name + ['='] + value;
    assert text[..|name|] == name && text[|name| + 1..] == value;
  }

  /** The word the lexer is reading after NAME='...'. */
  lemma RunAssignment(out: seq<ShellToken>, name: string, value: string, rest: string)
    requires IsName(name)
    ensures Run(Blank, out, name + ['='] + Quote(value) + rest) ==
            Run(InWord(name + ['='] + value, Some(|name| + 1)), out, rest)
  {
    NameIsPlain(out, name);
    var q := Quote(value) + rest;
    var tail := name[1..] + ['='];
    assert name + ['='] + Quote(value) + rest == [name[0]] + (tail + q);
    RunStep(Blank, out, name[0], tail + q);
    assert forall i :: 0 <= i < |tail| ==> Plain(tail[i]);
    RunName(out, [name[0]], tail, q);
    assert [name[0]] + tail == name + ['='];
    RunQuote(name + ['='], None, out, value, rest);
  }

  lemma AssignmentMembers(name: string, value: string)
    requires IsName(name)
    ensures '\0' in name + ['='] + Quote(value) <==> '\0' in value
  {
    NameIsPlain([], name);
    assert '\0' !in name by {
      assert forall i :: 0 <= i < |name| ==> Plain(name[i]);
    }
    EscapedMembers(value, '\0');
  }

  /** NAME='...' is read as one word that assigns exactly the quoted value to NAME; it is unreadable when, and
      only when, the value holds NUL. */
  lemma AssignmentRoundTrip(name: string, value: string)
    requires IsName(name)
    ensures var tokens := Lex(name + ['='] + Quote(value));
            if '\0' in value then tokens == None
            else tokens.Some? && |tokens.value| == 1 && AsAssignment(tokens.value[0]) == Some((name, value))
  {
    AssignmentMembers(name, value);
    RunAssignment([], name, value, "");
    assert name + ['='] + Quote(value) + "" == name + ['='] + Quote(value);
    AssignmentRead(name, value);
  }
}
