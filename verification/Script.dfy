/** The parts of the bootstrap script that carry its fields: its assignments and its here-documents. */
module Script {
  import opened Text
  import opened Shell

  // ---- Here-documents ----

  function Unlines(lines: seq<string>): string {
    if lines == [] then "" else lines[0] + ['\n'] + Unlines(lines[1..])
  }

  /** Section 2.7.4 of the POSIX.1-2017 Shell Command Language, for a quoted delimiter: the document is
      every line, unchanged, up to the first that is the delimiter. The text starts after the line that
      opens the document; the result is the document and the text behind the delimiter's line. */
  function ReadHereDoc(text: string, delimiter: string): (r: Option<(string, string)>)
    ensures r.Some? ==> |r.value.1| < |text|
    decreases |text|
  {
    var i := IndexOf(text, '\n');
    if i == |text| then None
    else if text[..i] == delimiter then Some(("", text[i + 1..]))
    else
      match ReadHereDoc(text[i + 1..], delimiter)
      case None => None
      case Some((document, rest)) => Some((text[..i + 1] + document, rest))
  }

  predicate OneLine(s: string) { '\n' !in s }

  /** Where the lines of a document end and its delimiter's line follows. */
  function HereDoc(lines: seq<string>, delimiter: string, rest: string): string {
    Unlines(lines) + (delimiter + ['\n'] + rest)
  }

  lemma ReadLine(line: string, text: string, delimiter: string)
    requires OneLine(line)
    ensures ReadHereDoc(line + ['\n'] + text, delimiter) ==
            if line == delimiter then Some(("", text)) else
              match ReadHereDoc(text, delimiter)
              case None => None
              case Some((document, rest)) => Some((line + ['\n'] + document, rest))
  {
    IndexOfSeparator(line, '\n', text);
    var all := line + ['\n'] + text;
    assert all[..|line|] == line && all[|line| + 1..] == text;
    assert all[..|line| + 1] == line + ['\n'];
  }

  lemma {:induction false} ReadDocument(lines: seq<string>, delimiter: string, rest: string)
    requires forall l :: l in lines ==> OneLine(l)
    requires OneLine(delimiter)
    ensures var r := ReadHereDoc(HereDoc(lines, delimiter, rest), delimiter);
            && r.Some?
            && (delimiter !in lines ==> r.value == (Unlines(lines), rest))
            && (delimiter in lines ==> |r.value.0| < |Unlines(lines)|)
    decreases lines
  {
    if lines == [] {
      ReadLine(delimiter, rest, delimiter);
      assert HereDoc(lines, delimiter, rest) == delimiter + ['\n'] + rest;
    } else {
      var line, more := lines[0], lines[1..];
      assert lines == [line] + more;
      ReadDocument(more, delimiter, rest);
      assert HereDoc(lines, delimiter, rest) == line + ['\n'] + HereDoc(more, delimiter, rest);
      ReadLine(line, HereDoc(more, delimiter, rest), delimiter);
    }
  }

  /** A document is read back as it was written exactly when none of its lines is the delimiter. */
  lemma HereDocRoundTrip(lines: seq<string>, delimiter: string, rest: string)
    requires forall l :: l in lines ==> OneLine(l)
    requires OneLine(delimiter)
    ensures ReadHereDoc(HereDoc(lines, delimiter, rest), delimiter) == Some((Unlines(lines), rest)) <==>
            delimiter !in lines
  {
    ReadDocument(lines, delimiter, rest);
  }

  // ---- The script's documents ----

  /** What is written into the script; stageDir is the directory both uploads are in, when it is the same. */
  datatype Fields = Fields(
    user: string, dataRoot: string, serverSource: string, contextqSource: string, serverBin: string,
    contextqBin: string, unitPath: string, caddyfile: string, snippetDir: string, snippetPath: string,
    stageDir: Option<string>, importLine: string, site: string, listen: string)

  /** The fields that the documents hold are single lines; a target is only used when they are. */
  predicate SingleLines(f: Fields) {
    && OneLine(f.user) && OneLine(f.dataRoot) && OneLine(f.serverBin) && OneLine(f.contextqBin)
    && OneLine(f.site) && OneLine(f.listen)
  }

  const SYSTEMD: string := "SYSTEMD"
  const CADDY: string := "CADDY"

  function UnitSection(): seq<string> {
    ["[Unit]", "Description=contextq HTTP command server", "After=network-online.target",
     "Wants=network-online.target", ""]
  }

  function ExecStart(f: Fields): string {
    "ExecStart=" + f.serverBin + " serve --listen " + f.listen + " --data-root " + f.dataRoot
    + " --contextq-bin " + f.contextqBin
  }

  function ServiceSection(f: Fields): seq<string> {
    ["[Service]", "Type=simple", "User=" + f.user, "Group=" + f.user, "WorkingDirectory=" + f.dataRoot, ExecStart(f)]
  }

  function Hardening(f: Fields): seq<string> {
    ["Restart=on-failure", "RestartSec=2s", "UMask=0027", "NoNewPrivileges=true", "PrivateTmp=true",
     "ProtectHome=true", "ProtectSystem=strict", "ReadWritePaths=" + f.dataRoot, ""]
  }

  function InstallSection(): seq<string> {
    ["[Install]", "WantedBy=multi-user.target"]
  }

  function UnitLines(f: Fields): seq<string> {
    UnitSection() + ServiceSection(f) + Hardening(f) + InstallSection()
  }

  function SnippetLines(f: Fields): seq<string> {
    [f.site + " {", "\treverse_proxy " + f.listen, "}"]
  }

  /** A line of the unit: no line starts with the first letter of the delimiter. */
  predicate UnitLine(l: string) {
    OneLine(l) && (l == "" || l[0] != 'S')
  }

  lemma UnitSectionLines()
    ensures forall l :: l in UnitSection() ==> UnitLine(l)
  {
  }

  lemma ServiceSectionLines(f: Fields)
    requires SingleLines(f)
    ensures forall l :: l in ServiceSection(f) ==> UnitLine(l)
  {
    ExecStartLine(f);
  }

  lemma ExecStartLine(f: Fields)
    requires SingleLines(f)
    ensures UnitLine(ExecStart(f))
  {
  }

  lemma HardeningLines(f: Fields)
    requires SingleLines(f)
    ensures forall l :: l in Hardening(f) ==> UnitLine(l)
  {
  }

  lemma InstallSectionLines()
    ensures forall l :: l in InstallSection() ==> UnitLine(l)
  {
  }

  /** The shell writes exactly the intended unit, whatever the fields are, and goes on behind it. */
  lemma UnitRoundTrip(f: Fields, rest: string)
    requires SingleLines(f)
    ensures ReadHereDoc(HereDoc(UnitLines(f), SYSTEMD, rest), SYSTEMD) == Some((Unlines(UnitLines(f)), rest))
  {
    UnitLinesOk(f);
    HereDocRoundTrip(UnitLines(f), SYSTEMD, rest);
  }

  lemma UnitLinesOk(f: Fields)
    requires SingleLines(f)
    ensures (forall l :: l in UnitLines(f) ==> OneLine(l)) && SYSTEMD !in UnitLines(f)
  {
    UnitSectionLines();
    ServiceSectionLines(f);
    HardeningLines(f);
    InstallSectionLines();
    assert forall l :: l in UnitLines(f) ==> UnitLine(l);
  }

  lemma SnippetRoundTrip(f: Fields, rest: string)
    requires SingleLines(f)
    ensures ReadHereDoc(HereDoc(SnippetLines(f), CADDY, rest), CADDY) == Some((Unlines(SnippetLines(f)), rest))
  {
    SnippetLinesOk(f);
    HereDocRoundTrip(SnippetLines(f), CADDY, rest);
  }

  lemma SnippetLinesOk(f: Fields)
    requires SingleLines(f)
    ensures (forall l :: l in SnippetLines(f) ==> OneLine(l)) && CADDY !in SnippetLines(f)
  {
    var l := f.site + " {";
    assert l[|l| - 1] == '{' && CADDY[4] == 'Y';
  }

  // ---- Assignments ----

  /** An assignment on a line of its own, with the number of empty lines behind it. */
  datatype Assignment = Assignment(name: string, value: string, gap: nat)

  function Newlines(n: nat): string {
    seq(n, _ => '\n')
  }

  function BlockText(block: seq<Assignment>): string {
    if block == [] then ""
    else
      var a := block[0];
      a.name + ['='] + Quote(a.value) + (Newlines(a.gap + 1) + BlockText(block[1..]))
  }

  /** The assignments a list of commands performs, when it consists of nothing else. */
  function Assignments(tokens: seq<ShellToken>): Option<seq<(string, string)>> {
    if tokens == [] then Some([])
    else if tokens[0] == Newline then Assignments(tokens[1..])
    else
      var more := Assignments(tokens[1..]);
      var a := AsAssignment(tokens[0]);
      if a.None? || more.None? then None else Some([a.value] + more.value)
  }

  function ReadBlock(text: string): Option<seq<(string, string)>> {
    var tokens := Lex(text);
    if tokens.None? then None else Assignments(tokens.value)
  }

  predicate NulFree(block: seq<Assignment>) {
    forall a :: a in block ==> '\0' !in a.value
  }

  function Pairs(block: seq<Assignment>): seq<(string, string)> {
    if block == [] then [] else [(block[0].name, block[0].value)] + Pairs(block[1..])
  }

  function NewlineTokens(n: nat): seq<ShellToken> {
    seq(n, _ => Newline)
  }

  function AssignmentWord(a: Assignment): ShellToken {
    Word(a.name + ['='] + a.value, Some(|a.name| + 1))
  }

  function BlockTokens(block: seq<Assignment>): seq<ShellToken> {
    if block == [] then []
    else
      [AssignmentWord(block[0])] + (NewlineTokens(block[0].gap + 1) + BlockTokens(block[1..]))
  }

  lemma {:induction false} RunNewlines(n: nat, out: seq<ShellToken>, rest: string)
    ensures Run(Blank, out, Newlines(n) + rest) == Run(Blank, out + NewlineTokens(n), rest)
    decreases n
  {
    if n == 0 {
      assert Newlines(0) + rest == rest && out + NewlineTokens(0) == out;
    } else {
      assert Newlines(n) + rest == ['\n'] + (Newlines(n - 1) + rest);
      RunStep(Blank, out, '\n', Newlines(n - 1) + rest);
      RunNewlines(n - 1, out + [Newline], rest);
      assert out + [Newline] + NewlineTokens(n - 1) == out + NewlineTokens(n);
    }
  }

  lemma RunLine(a: Assignment, out: seq<ShellToken>, rest: string)
    requires IsName(a.name)
    ensures Run(Blank, out, a.name + ['='] + Quote(a.value) + (Newlines(a.gap + 1) + rest)) ==
            Run(Blank, out + [AssignmentWord(a)] + NewlineTokens(a.gap + 1), rest)
  {
    var word, lines := AssignmentWord(a), Newlines(a.gap) + rest;
    assert Newlines(a.gap + 1) + rest == ['\n'] + lines;
    RunAssignment(out, a.name, a.value, ['\n'] + lines);
    RunStep(InWord(word.text, word.quoteAt), out, '\n', lines);
    RunNewlines(a.gap, out + [word, Newline], rest);
    assert out + [word, Newline] + NewlineTokens(a.gap) == out + [word] + NewlineTokens(a.gap + 1);
  }

  lemma {:induction false} RunBlock(block: seq<Assignment>, out: seq<ShellToken>)
    requires forall a :: a in block ==> IsName(a.name)
    ensures Run(Blank, out, BlockText(block)) == Some(out + BlockTokens(block))
    decreases block
  {
    if block == [] {
      assert out + BlockTokens(block) == out;
    } else {
      var a, more := block[0], block[1..];
      var out' := out + [AssignmentWord(a)] + NewlineTokens(a.gap + 1);
      RunLine(a, out, BlockText(more));
      RunBlock(more, out');
      TokensRegroup(out, AssignmentWord(a), NewlineTokens(a.gap + 1), BlockTokens(more));
    }
  }

  lemma TokensRegroup(out: seq<ShellToken>, word: ShellToken, gap: seq<ShellToken>, more: seq<ShellToken>)
    ensures out + [word] + gap + more == out + ([word] + (gap + more))
  {
  }

  lemma {:induction false} SkipNewlines(n: nat, tokens: seq<ShellToken>)
    ensures Assignments(NewlineTokens(n) + tokens) == Assignments(tokens)
    decreases n
  {
    if n == 0 {
      assert NewlineTokens(0) + tokens == tokens;
    } else {
      assert (NewlineTokens(n) + tokens)[1..] == NewlineTokens(n - 1) + tokens;
      SkipNewlines(n - 1, tokens);
    }
  }

  lemma {:induction false} AssignmentsOfBlock(block: seq<Assignment>)
    requires forall a :: a in block ==> IsName(a.name)
    ensures Assignments(BlockTokens(block)) == Some(Pairs(block))
    decreases block
  {
    if block != [] {
      var a, more := block[0], BlockTokens(block[1..]);
      AssignmentRead(a.name, a.value);
      assert BlockTokens(block)[1..] == NewlineTokens(a.gap + 1) + more;
      SkipNewlines(a.gap + 1, more);
      AssignmentsOfBlock(block[1..]);
    }
  }

  lemma {:induction false} BlockMembers(block: seq<Assignment>)
    requires forall a :: a in block ==> IsName(a.name)
    ensures '\0' !in BlockText(block) <==> NulFree(block)
    decreases block
  {
    if block != [] {
      AssignmentMembers(block[0].name, block[0].value);
      BlockMembers(block[1..]);
      assert block == [block[0]] + block[1..];
    }
  }

  /** A block of NAME='...' lines assigns exactly the values it was written from, in order, whatever other
      characters they hold; it is unreadable when, and only when, a value holds NUL. */
  lemma BlockRoundTrip(block: seq<Assignment>)
    requires forall a :: a in block ==> IsName(a.name)
    ensures ReadBlock(BlockText(block)) == if NulFree(block) then Some(Pairs(block)) else None
  {
    BlockMembers(block);
    RunBlock(block, []);
    assert [] + BlockTokens(block) == BlockTokens(block);
    AssignmentsOfBlock(block);
  }

  // ---- The script's variables ----

  function Environment(pairs: seq<(string, string)>): map<string, string> {
    if pairs == [] then map[]
    else
      var n := |pairs| - 1;
      Environment(pairs[..n])[pairs[n].0 := pairs[n].1]
  }

  const NAMES: seq<string> :=
    ["SERVICE_USER", "DATA_ROOT", "SERVER_SOURCE", "CONTEXTQ_SOURCE", "SERVER_BIN", "CONTEXTQ_BIN", "UNIT_PATH",
     "CADDYFILE", "SNIPPET_DIR", "SNIPPET_PATH"]
  const STAGE_DIR: string := "STAGE_DIR"
  const IMPORT_LINE: string := "IMPORT_LINE"

  function Values(f: Fields): seq<string> {
    [f.user, f.dataRoot, f.serverSource, f.contextqSource, f.serverBin, f.contextqBin, f.unitPath, f.caddyfile,
     f.snippetDir, f.snippetPath]
  }

  /** The block at the head of the script; an empty line follows the last two names and the staging directory. */
  function Header(f: Fields): (block: seq<Assignment>)
    ensures |block| == |NAMES| + (if f.stageDir.Some? then 1 else 0)
  {
    seq(|NAMES|, i requires 0 <= i < |NAMES| => Assignment(NAMES[i], Values(f)[i], if i < 8 then 0 else 1))
    + (if f.stageDir.Some? then [Assignment(STAGE_DIR, f.stageDir.value, 0)] else [])
  }

  /** The assignment in front of the line that looks for the import. */
  function ImportBlock(f: Fields): seq<Assignment> {
    [Assignment(IMPORT_LINE, f.importLine, 0)]
  }

  lemma NamesAreNames()
    ensures forall i :: 0 <= i < |NAMES| ==> IsName(NAMES[i])
    ensures IsName(STAGE_DIR) && IsName(IMPORT_LINE)
  {
  }

  lemma NamesDiffer(i: nat, j: nat)
    requires i < j < |NAMES|
    ensures NAMES[i] != NAMES[j]
  {
  }

  lemma OthersDiffer(i: nat)
    requires i < |NAMES|
    ensures NAMES[i] != STAGE_DIR && NAMES[i] != IMPORT_LINE && STAGE_DIR != IMPORT_LINE
  {
  }

  lemma {:induction false} PairsAt(block: seq<Assignment>)
    ensures |Pairs(block)| == |block|
    ensures forall i :: 0 <= i < |block| ==> Pairs(block)[i] == (block[i].name, block[i].value)
    decreases block
  {
    if block != [] {
      PairsAt(block[1..]);
    }
  }

  lemma {:induction false} LastAssignmentWins(pairs: seq<(string, string)>, k: nat)
    requires k < |pairs| && forall j :: k < j < |pairs| ==> pairs[j].0 != pairs[k].0
    ensures pairs[k].0 in Environment(pairs) && Environment(pairs)[pairs[k].0] == pairs[k].1
    decreases pairs
  {
    if k < |pairs| - 1 {
      LastAssignmentWins(pairs[..|pairs| - 1], k);
    }
  }

  /** All assignments of the script, in the order in which they are performed. */
  function Performed(f: Fields): seq<(string, string)> {
    Pairs(Header(f)) + Pairs(ImportBlock(f))
  }

  lemma {:induction false} OnlyAssigned(pairs: seq<(string, string)>, name: string)
    requires forall i :: 0 <= i < |pairs| ==> pairs[i].0 != name
    ensures name !in Environment(pairs)
    decreases pairs
  {
    if pairs != [] {
      OnlyAssigned(pairs[..|pairs| - 1], name);
    }
  }

  lemma PerformedAt(f: Fields)
    ensures var p, n := Performed(f), |NAMES|;
            && |p| == |Header(f)| + 1
            && (forall i :: 0 <= i < n ==> p[i] == (NAMES[i], Values(f)[i]))
            && (f.stageDir.Some? ==> |p| == n + 2 && p[n] == (STAGE_DIR, f.stageDir.value))
            && (f.stageDir.None? ==> |p| == n + 1)
            && p[|p| - 1] == (IMPORT_LINE, f.importLine)
  {
    PairsAt(Header(f));
    PairsAt(ImportBlock(f));
  }

  lemma VariablesSet(f: Fields)
    ensures var env := Environment(Performed(f));
            && (forall i :: 0 <= i < |NAMES| ==> NAMES[i] in env && env[NAMES[i]] == Values(f)[i])
            && IMPORT_LINE in env && env[IMPORT_LINE] == f.importLine
            && (STAGE_DIR in env <==> f.stageDir.Some?)
            && (f.stageDir.Some? ==> env[STAGE_DIR] == f.stageDir.value)
  {
    var p := Performed(f);
    PerformedAt(f);
    forall i | 0 <= i < |NAMES| ensures NAMES[i] in Environment(p) && Environment(p)[NAMES[i]] == Values(f)[i] {
      NameIsLast(f, i);
      LastAssignmentWins(p, i);
    }
    OthersDiffer(0);
    LastAssignmentWins(p, |p| - 1);
    if f.stageDir.Some? {
      LastAssignmentWins(p, |NAMES|);
    } else {
      forall i | 0 <= i < |p| ensures p[i].0 != STAGE_DIR {
        if i < |NAMES| { OthersDiffer(i); }
      }
      OnlyAssigned(p, STAGE_DIR);
    }
  }

  lemma NameIsLast(f: Fields, i: nat)
    requires i < |NAMES|
    ensures forall j :: i < j < |Performed(f)| ==> Performed(f)[j].0 != NAMES[i]
  {
    PerformedAt(f);
    OthersDiffer(i);
    forall j | i < j < |Performed(f)| ensures Performed(f)[j].0 != NAMES[i] {
      if j < |NAMES| { NamesDiffer(i, j); }
    }
  }

  /** Every variable of the script has the value it was generated from, for values of any characters but NUL,
      which no script can hold. */
  lemma VariablesRoundTrip(f: Fields)
    ensures ReadBlock(BlockText(Header(f))) == if NulFree(Header(f)) then Some(Pairs(Header(f))) else None
    ensures ReadBlock(BlockText(ImportBlock(f))) == if '\0' !in f.importLine then Some(Pairs(ImportBlock(f))) else None
    ensures var env := Environment(Performed(f));
            && (forall i :: 0 <= i < |NAMES| ==> NAMES[i] in env && env[NAMES[i]] == Values(f)[i])
            && IMPORT_LINE in env && env[IMPORT_LINE] == f.importLine
            && (STAGE_DIR in env <==> f.stageDir.Some?)
            && (f.stageDir.Some? ==> env[STAGE_DIR] == f.stageDir.value)
  {
    NamesAreNames();
    BlockRoundTrip(Header(f));
    BlockRoundTrip(ImportBlock(f));
    VariablesSet(f);
  }
}
