/** The bootstrap script as one text, and the shell that reads it line by line. */
module ScriptReader {
  import opened Text
  import opened Shell
  import opened Script
  import Bootstrap

  // ---- Lines that open a here-document ----

  datatype Quoting = Bare | Single | Double | BareEscape | DoubleEscape

  datatype Opening = NoDocument | Opens(delimiter: string) | Unreadable

  /** What is left of a line behind the operator that opens a here-document: a quoted delimiter. */
  function Delimiter(rest: string): Opening {
    if |rest| >= 2 && rest[0] == '\'' && rest[|rest| - 1] == '\'' && '\'' !in rest[1..|rest| - 1]
    then Opens(rest[1..|rest| - 1]) else Unreadable
  }

  /** Whether a line opens a here-document, by the quoting rules of sections 2.2.1 to 2.2.3: the operator counts
      only outside quotes. A quotation that goes on in the next line is not read. */
  function Scan(quoting: Quoting, line: string): Opening
    decreases |line|
  {
    if line == "" then if quoting == Bare then NoDocument else Unreadable
    else
      var c, rest := line[0], line[1..];
      match quoting
      case Bare =>
        if c == '<' && rest != "" && rest[0] == '<' then Delimiter(rest[1..])
        else Scan(if c == '\'' then Single else if c == '"' then Double else if c == '\\' then BareEscape else Bare, rest)
      case Single => Scan(if c == '\'' then Bare else Single, rest)
      case Double => Scan(if c == '"' then Bare else if c == '\\' then DoubleEscape else Double, rest)
      case BareEscape => Scan(Bare, rest)
      case DoubleEscape => Scan(Double, rest)
  }

  /** A comment line opens nothing. */
  function OpeningOf(line: string): Opening {
    if line != "" && line[0] == '#' then NoDocument else Scan(Bare, line)
  }

  predicate Unquoting(c: char) {
    c != '\'' && c != '"' && c != '\\' && c != '<'
  }

  lemma {:induction false} ScanBare(p: string, rest: string)
    requires forall i :: 0 <= i < |p| ==> Unquoting(p[i])
    ensures Scan(Bare, p + rest) == Scan(Bare, rest)
    decreases p
  {
    if p == "" {
      assert p + rest == rest;
    } else {
      assert (p + rest)[1..] == p[1..] + rest;
      ScanBare(p[1..], rest);
    }
  }

  lemma {:induction false} ScanDouble(p: string, rest: string)
    requires forall i :: 0 <= i < |p| ==> Unquoting(p[i])
    ensures Scan(Double, p + (['"'] + rest)) == Scan(Bare, rest)
    decreases p
  {
    var s := p + (['"'] + rest);
    if p == "" {
      assert s[1..] == rest;
    } else {
      assert s[1..] == p[1..] + (['"'] + rest);
      ScanDouble(p[1..], rest);
    }
  }

  lemma ScanEscaped(rest: string)
    ensures Scan(Single, ESCAPED + rest) == Scan(Single, rest)
  {
    var r3 := ['\''] + rest;
    var r2 := ['\''] + r3;
    var r1 := ['\\'] + r2;
    assert ESCAPED + rest == ['\''] + r1;
    assert (['\''] + r1)[1..] == r1 && r1[1..] == r2 && r2[1..] == r3 && r3[1..] == rest;
    assert Scan(Single, ['\''] + r1) == Scan(Bare, r1) == Scan(BareEscape, r2) == Scan(Bare, r3) == Scan(Single, rest);
  }

  lemma {:induction false} ScanQuoted(value: string, rest: string)
    ensures Scan(Single, Escaped(value) + (['\''] + rest)) == Scan(Bare, rest)
    decreases value
  {
    var tail := ['\''] + rest;
    if value == "" {
      assert Escaped(value) + tail == tail && tail[1..] == rest;
    } else {
      var body := Escaped(value[1..]) + tail;
      ScanQuoted(value[1..], rest);
      if value[0] == '\'' {
        assert Escaped(value) + tail == ESCAPED + body;
        ScanEscaped(body);
      } else {
        assert Escaped(value) + tail == [value[0]] + body;
        assert ([value[0]] + body)[1..] == body;
      }
    }
  }

  /** An assignment opens no document, whatever its value. */
  lemma AssignmentOpensNothing(name: string, value: string)
    requires IsName(name)
    ensures OpeningOf(name + ['='] + Quote(value)) == NoDocument
  {
    var line, body := name + ['='] + Quote(value), Escaped(value) + ['\''];
    assert line == (name + ['=']) + (['\''] + body);
    NameIsPlain([], name);
    ScanBare(name + ['='], ['\''] + body);
    assert (['\''] + body)[1..] == body;
    ScanQuoted(value, "");
    assert Escaped(value) + (['\''] + "") == body;
    assert line[0] == name[0];
  }

  /** The line that opens the document for the file of a variable. */
  function OpeningLine(variable: string, delimiter: string): string {
    CAT + (['"'] + (TARGET(variable) + (['"'] + ([' '] + (['<', '<'] + (['\''] + delimiter + ['\'']))))))
  }

  const CAT: string := "cat > "

  function TARGET(variable: string): string {
    ['$'] + variable + ".new"
  }

  lemma OpeningLineOpens(variable: string, delimiter: string)
    requires IsName(variable) && '\'' !in delimiter
    ensures OpeningOf(OpeningLine(variable, delimiter)) == Opens(delimiter)
  {
    var quoted := ['\''] + delimiter + ['\''];
    var op := ['<', '<'] + quoted;
    var target := TARGET(variable);
    NameIsPlain([], variable);
    assert forall i :: 0 <= i < |variable| ==> Unquoting(variable[i]);
    ScanBare(CAT, ['"'] + (target + (['"'] + ([' '] + op))));
    assert (['"'] + (target + (['"'] + ([' '] + op))))[1..] == target + (['"'] + ([' '] + op));
    ScanDouble(target, [' '] + op);
    ScanBare([' '], op);
    assert op[1..] == ['<'] + quoted && op[1..][1..] == quoted;
    assert quoted[1..|quoted| - 1] == delimiter;
    assert OpeningLine(variable, delimiter)[0] == 'c';
  }

  // ---- The script as a whole ----

  /** What the generator writes: a line, or a document with the line that opens it. */
  datatype Piece = Line(text: string) | Doc(opening: string, delimiter: string, lines: seq<string>)

  /** What the shell takes it for. */
  datatype Heard = Command(text: string) | Document(opening: string, body: string)

  function PieceText(p: Piece): string {
    match p
    case Line(text) => text + ['\n']
    case Doc(opening, delimiter, lines) => opening + ['\n'] + (Unlines(lines) + (delimiter + ['\n']))
  }

  function Render(pieces: seq<Piece>): string {
    if pieces == [] then "" else PieceText(pieces[0]) + Render(pieces[1..])
  }

  function HeardAs(p: Piece): Heard {
    match p
    case Line(text) => Command(text)
    case Doc(opening, _, lines) => Document(opening, Unlines(lines))
  }

  function AllHeard(pieces: seq<Piece>): seq<Heard> {
    if pieces == [] then [] else [HeardAs(pieces[0])] + AllHeard(pieces[1..])
  }

  function ReadScript(text: string): Option<seq<Heard>>
    decreases |text|
  {
    var i := IndexOf(text, '\n');
    if text == "" then Some([])
    else if i == |text| then None
    else
      var line, rest := text[..i], text[i + 1..];
      match OpeningOf(line)
      case Unreadable => None
      case NoDocument => (
        match ReadScript(rest)
        case None => None
        case Some(more) => Some([Command(line)] + more))
      case Opens(delimiter) =>
        var document := ReadHereDoc(rest, delimiter);
        if document.None? then None
        else
          match ReadScript(document.value.1)
          case None => None
          case Some(more) => Some([Document(line, document.value.0)] + more)
  }

  predicate WellFormed(p: Piece) {
    match p
    case Line(text) => OneLine(text) && OpeningOf(text) == NoDocument
    case Doc(opening, delimiter, lines) =>
      && OneLine(opening) && OpeningOf(opening) == Opens(delimiter) && OneLine(delimiter)
      && (forall l :: l in lines ==> OneLine(l)) && delimiter !in lines
  }

  lemma ReadCommand(line: string, rest: string)
    requires OneLine(line) && OpeningOf(line) == NoDocument
    ensures ReadScript(line + ['\n'] + rest) ==
            match ReadScript(rest) case None => None case Some(more) => Some([Command(line)] + more)
  {
    var text := line + ['\n'] + rest;
    IndexOfSeparator(line, '\n', rest);
    assert text[..|line|] == line && text[|line| + 1..] == rest;
  }

  lemma ReadOpening(opening: string, delimiter: string, rest: string)
    requires OneLine(opening) && OpeningOf(opening) == Opens(delimiter)
    ensures ReadScript(opening + ['\n'] + rest) ==
            match ReadHereDoc(rest, delimiter)
            case None => None
            case Some(document) =>
              match ReadScript(document.1) case None => None case Some(more) => Some([Document(opening, document.0)] + more)
  {
    var text := opening + ['\n'] + rest;
    IndexOfSeparator(opening, '\n', rest);
    assert text[..|opening|] == opening && text[|opening| + 1..] == rest;
  }

  lemma ReadPiece(p: Piece, rest: string)
    requires WellFormed(p)
    ensures ReadScript(PieceText(p) + rest) ==
            match ReadScript(rest) case None => None case Some(more) => Some([HeardAs(p)] + more)
  {
    match p
    case Line(text) => ReadCommand(text, rest);
    case Doc(opening, delimiter, lines) =>
      var tail := HereDoc(lines, delimiter, rest);
      assert PieceText(p) + rest == opening + ['\n'] + tail;
      ReadOpening(opening, delimiter, tail);
      HereDocRoundTrip(lines, delimiter, rest);
  }

  /** A script is read back piece by piece: every document whole, and no line inside one as a command. */
  lemma {:induction false} ReadRendered(pieces: seq<Piece>)
    requires forall p :: p in pieces ==> WellFormed(p)
    ensures ReadScript(Render(pieces)) == Some(AllHeard(pieces))
    decreases pieces
  {
    if pieces != [] {
      assert pieces == [pieces[0]] + pieces[1..];
      ReadRendered(pieces[1..]);
      ReadPiece(pieces[0], Render(pieces[1..]));
    }
  }

  // ---- What the script does ----

  /** The assignments that are made by lines which do nothing else. */
  function AssignedBy(h: Heard): seq<(string, string)> {
    if h.Command? && ReadBlock(h.text).Some? then ReadBlock(h.text).value else []
  }

  function Assigned(heard: seq<Heard>): seq<(string, string)> {
    if heard == [] then [] else AssignedBy(heard[0]) + Assigned(heard[1..])
  }

  function DocumentFor(heard: seq<Heard>, opening: string): Option<string> {
    if heard == [] then None
    else if heard[0].Document? && heard[0].opening == opening then Some(heard[0].body)
    else DocumentFor(heard[1..], opening)
  }

  function Value(env: map<string, string>, name: string): string {
    if name in env then env[name] else ""
  }

  /** The configuration and the stage that the steps of a script work with. */
  function ReadMeaning(text: string, parents: set<string>): Option<(Bootstrap.Config, Bootstrap.Stage)> {
    var heard := ReadScript(text);
    if heard.None? then None
    else
      var unit, snippet := DocumentFor(heard.value, UnitOpening()), DocumentFor(heard.value, SnippetOpening());
      var env := Environment(Assigned(heard.value));
      var v := seq(|NAMES|, i requires 0 <= i < |NAMES| => Value(env, NAMES[i]));
      if unit.None? || snippet.None? then None
      else Some(Meaning(v, unit.value, snippet.value, Value(env, IMPORT_LINE), parents))
  }

  function Meaning(v: seq<string>, unit: string, snippet: string, importLine: string, parents: set<string>)
    : (Bootstrap.Config, Bootstrap.Stage)
    requires |v| == 10
  {
    (Bootstrap.Config(v[0], v[1], parents, v[4], v[5], v[6], unit, v[8], v[9], snippet, v[7], importLine),
     Bootstrap.Stage(v[2], v[3]))
  }

  function ConfigOf(f: Fields, parents: set<string>): Bootstrap.Config {
    Bootstrap.Config(f.user, f.dataRoot, parents, f.serverBin, f.contextqBin, f.unitPath, Unlines(UnitLines(f)),
                     f.snippetDir, f.snippetPath, Unlines(SnippetLines(f)), f.caddyfile, f.importLine)
  }

  function UnitOpening(): string {
    OpeningLine(NAMES[6], SYSTEMD)
  }

  function SnippetOpening(): string {
    OpeningLine(NAMES[9], CADDY)
  }

  /** The lines of the script that hold no field, in the order of its sections. */
  datatype FixedLines = FixedLines(
    start: seq<string>, checks: seq<string>, middle: seq<string>, swap: seq<string>, services: seq<string>)

  /** A line that opens no document and does not consist of assignments. */
  predicate Ordinary(l: string) {
    OneLine(l) && OpeningOf(l) == NoDocument && AssignedBy(Command(l)) == []
  }

  predicate AllOrdinary(x: FixedLines) {
    forall l :: l in x.start + x.checks + x.middle + x.swap + x.services ==> Ordinary(l)
  }

  function Lines(ls: seq<string>): seq<Piece> {
    if ls == [] then [] else [Line(ls[0])] + Lines(ls[1..])
  }

  function AssignmentLine(a: Assignment): string {
    a.name + ['='] + Quote(a.value)
  }

  /** A block of assignments, line by line, with its empty lines. */
  function BlockLines(block: seq<Assignment>): seq<string> {
    if block == [] then []
    else [AssignmentLine(block[0])] + (seq(block[0].gap, _ => "") + BlockLines(block[1..]))
  }

  /** The lines before the first document, and those behind the second. */
  function FirstLines(f: Fields, x: FixedLines): seq<string> {
    x.start + BlockLines(Header(f)) + x.checks
  }

  function LastLines(f: Fields, x: FixedLines): seq<string> {
    x.swap + BlockLines(ImportBlock(f)) + x.services
  }

  function Assembled(first: seq<string>, d: Piece, middle: seq<string>, d': Piece, last: seq<string>): seq<Piece> {
    Lines(first) + ([d] + (Lines(middle) + ([d'] + Lines(last))))
  }

  function Pieces(f: Fields, x: FixedLines): seq<Piece> {
    Assembled(FirstLines(f, x), Doc(UnitOpening(), SYSTEMD, UnitLines(f)), x.middle,
              Doc(SnippetOpening(), CADDY, SnippetLines(f)), LastLines(f, x))
  }

  function ScriptText(f: Fields, x: FixedLines): string {
    Render(Pieces(f, x))
  }

  /** All fields are single lines without NUL; a script is generated from no others. */
  predicate Printable(f: Fields) {
    && SingleLines(f)
    && (forall i :: 0 <= i < |NAMES| ==> OneLine(Values(f)[i]) && '\0' !in Values(f)[i])
    && (f.stageDir.Some? ==> OneLine(f.stageDir.value) && '\0' !in f.stageDir.value)
    && OneLine(f.importLine) && '\0' !in f.importLine
  }

  // ---- Lines and documents one after the other ----

  function LineAssignments(ls: seq<string>): seq<(string, string)> {
    if ls == [] then [] else AssignedBy(Command(ls[0])) + LineAssignments(ls[1..])
  }

  lemma {:induction false} LineAssignmentsAppend(a: seq<string>, b: seq<string>)
    ensures LineAssignments(a + b) == LineAssignments(a) + LineAssignments(b)
    decreases a
  {
    if a == [] {
      assert a + b == b;
    } else {
      assert (a + b)[1..] == a[1..] + b;
      LineAssignmentsAppend(a[1..], b);
    }
  }

  lemma {:induction false} OrdinaryAssignNothing(ls: seq<string>)
    requires forall l :: l in ls ==> Ordinary(l)
    ensures LineAssignments(ls) == []
    decreases ls
  {
    if ls != [] {
      assert Ordinary(ls[0]);
      OrdinaryAssignNothing(ls[1..]);
    }
  }

  lemma EmptyLine()
    ensures Ordinary("")
  {
  }

  lemma AssignmentLineAssigns(a: Assignment)
    requires IsName(a.name) && '\0' !in a.value
    ensures AssignedBy(Command(AssignmentLine(a))) == [(a.name, a.value)]
  {
    AssignmentRoundTrip(a.name, a.value);
    var tokens := Lex(AssignmentLine(a)).value;
    assert tokens[1..] == [];
    assert Assignments(tokens[1..]) == Some([]);
  }

  lemma GapAssignsNothing(gap: nat, ls: seq<string>)
    ensures LineAssignments(seq(gap, _ => "") + ls) == LineAssignments(ls)
  {
    EmptyLine();
    OrdinaryAssignNothing(seq(gap, _ => ""));
    LineAssignmentsAppend(seq(gap, _ => ""), ls);
  }

  lemma {:induction false} BlockLinesAssign(block: seq<Assignment>)
    requires NulFree(block) && forall a :: a in block ==> IsName(a.name)
    ensures LineAssignments(BlockLines(block)) == Pairs(block)
    decreases block
  {
    if block != [] {
      AssignmentLineAssigns(block[0]);
      GapAssignsNothing(block[0].gap, BlockLines(block[1..]));
      BlockLinesAssign(block[1..]);
    }
  }

  predicate Harmless(l: string) {
    OneLine(l) && OpeningOf(l) == NoDocument
  }

  lemma {:induction false} BlockLinesHarmless(block: seq<Assignment>)
    requires forall a :: a in block ==> IsName(a.name) && OneLine(a.value)
    ensures forall l :: l in BlockLines(block) ==> Harmless(l)
    decreases block
  {
    if block != [] {
      var a := block[0];
      NameIsPlain([], a.name);
      EscapedMembers(a.value, '\n');
      assert '\n' !in a.name by {
        assert forall i :: 0 <= i < |a.name| ==> Plain(a.name[i]);
      }
      AssignmentOpensNothing(a.name, a.value);
      BlockLinesHarmless(block[1..]);
    }
  }

  lemma HearLine(l: string, tail: seq<Piece>, opening: string)
    ensures Assigned(AllHeard([Line(l)] + tail)) == AssignedBy(Command(l)) + Assigned(AllHeard(tail))
    ensures DocumentFor(AllHeard([Line(l)] + tail), opening) == DocumentFor(AllHeard(tail), opening)
  {
    assert ([Line(l)] + tail)[1..] == tail;
    assert AllHeard([Line(l)] + tail)[1..] == AllHeard(tail);
  }

  lemma LinesCons(l: string, ls: seq<string>, tail: seq<Piece>)
    ensures Lines([l] + ls) + tail == [Line(l)] + (Lines(ls) + tail)
    ensures LineAssignments([l] + ls) == AssignedBy(Command(l)) + LineAssignments(ls)
  {
    assert ([l] + ls)[1..] == ls;
  }

  lemma PairsRegroup(a: seq<(string, string)>, b: seq<(string, string)>, c: seq<(string, string)>)
    ensures a + (b + c) == (a + b) + c
  {
  }

  lemma {:induction false} HearLines(ls: seq<string>, tail: seq<Piece>, opening: string)
    ensures Assigned(AllHeard(Lines(ls) + tail)) == LineAssignments(ls) + Assigned(AllHeard(tail))
    ensures DocumentFor(AllHeard(Lines(ls) + tail), opening) == DocumentFor(AllHeard(tail), opening)
    decreases |ls|
  {
    if ls == [] {
      assert Lines(ls) + tail == tail;
    } else {
      var l, rest := ls[0], ls[1..];
      assert ls == [l] + rest;
      LinesCons(l, rest, tail);
      HearLine(l, Lines(rest) + tail, opening);
      HearLines(rest, tail, opening);
      PairsRegroup(AssignedBy(Command(l)), LineAssignments(rest), Assigned(AllHeard(tail)));
    }
  }

  lemma HearDoc(d: Piece, tail: seq<Piece>, opening: string)
    requires d.Doc?
    ensures Assigned(AllHeard([d] + tail)) == Assigned(AllHeard(tail))
    ensures DocumentFor(AllHeard([d] + tail), opening) ==
            if d.opening == opening then Some(Unlines(d.lines)) else DocumentFor(AllHeard(tail), opening)
  {
    assert ([d] + tail)[1..] == tail;
  }

  // ---- Lines without assignments ----

  predicate HoldsNone(token: ShellToken) {
    token == Newline || '=' !in token.text
  }

  predicate ModeHoldsNone(mode: Mode) {
    mode == Blank || mode == Comment || '=' !in mode.text
  }

  lemma StepHoldsNone(mode: Mode, out: seq<ShellToken>, c: char)
    requires c != '=' && ModeHoldsNone(mode) && (forall t :: t in out ==> HoldsNone(t)) && Step(mode, out, c).Some?
    ensures ModeHoldsNone(Step(mode, out, c).value.0) && forall t :: t in Step(mode, out, c).value.1 ==> HoldsNone(t)
  {
  }

  lemma {:induction false} RunHoldsNone(mode: Mode, out: seq<ShellToken>, s: string)
    requires '=' !in s && ModeHoldsNone(mode) && (forall t :: t in out ==> HoldsNone(t)) && Run(mode, out, s).Some?
    ensures forall t :: t in Run(mode, out, s).value ==> HoldsNone(t)
    decreases |s|
  {
    if s != "" {
      StepHoldsNone(mode, out, s[0]);
      var next := Step(mode, out, s[0]).value;
      RunHoldsNone(next.0, next.1, s[1..]);
    }
  }

  lemma {:induction false} NoneAssigned(tokens: seq<ShellToken>)
    requires forall t :: t in tokens ==> HoldsNone(t)
    ensures Assignments(tokens) == None || Assignments(tokens) == Some([])
    decreases tokens
  {
    if tokens != [] {
      assert HoldsNone(tokens[0]);
      NoneAssigned(tokens[1..]);
    }
  }

  /** Every single line without an equals sign that opens no document is ordinary. */
  lemma OrdinaryLine(l: string)
    requires OneLine(l) && OpeningOf(l) == NoDocument && '=' !in l
    ensures Ordinary(l)
  {
    if Lex(l).Some? {
      RunHoldsNone(Blank, [], l);
      NoneAssigned(Lex(l).value);
    }
  }

  // ---- The script's meaning ----

  lemma HeaderFields(f: Fields)
    requires Printable(f)
    ensures forall a :: a in Header(f) + ImportBlock(f) ==> IsName(a.name) && OneLine(a.value) && '\0' !in a.value
  {
    NamesAreNames();
  }

  /** Lines around two groups of assignments. */
  lemma SectionAssigns(before: seq<string>, block: seq<Assignment>, after: seq<string>)
    requires NulFree(block) && forall a :: a in block ==> IsName(a.name)
    requires forall l :: l in before + after ==> Ordinary(l)
    ensures LineAssignments(before + BlockLines(block) + after) == Pairs(block)
  {
    LineAssignmentsAppend(before + BlockLines(block), after);
    LineAssignmentsAppend(before, BlockLines(block));
    OrdinaryAssignNothing(before);
    OrdinaryAssignNothing(after);
    BlockLinesAssign(block);
  }

  lemma OpeningsDiffer()
    ensures UnitOpening() != SnippetOpening()
  {
    assert |UnitOpening()| != |SnippetOpening()|;
  }

  lemma AssembledHeard(first: seq<string>, d: Piece, middle: seq<string>, d': Piece, last: seq<string>, opening: string)
    requires d.Doc? && d'.Doc? && d.opening != d'.opening
    ensures var heard := AllHeard(Assembled(first, d, middle, d', last));
            && Assigned(heard) == LineAssignments(first) + (LineAssignments(middle) + LineAssignments(last))
            && (opening == d.opening ==> DocumentFor(heard, opening) == Some(Unlines(d.lines)))
            && (opening == d'.opening ==> DocumentFor(heard, opening) == Some(Unlines(d'.lines)))
  {
    HearLines(last, [], opening);
    assert Lines(last) + [] == Lines(last) && LineAssignments(last) + [] == LineAssignments(last);
    HearDoc(d', Lines(last), opening);
    HearLines(middle, [d'] + Lines(last), opening);
    HearDoc(d, Lines(middle) + ([d'] + Lines(last)), opening);
    HearLines(first, [d] + (Lines(middle) + ([d'] + Lines(last))), opening);
  }

  lemma LinesAssign(f: Fields, x: FixedLines)
    requires Printable(f) && AllOrdinary(x)
    ensures LineAssignments(FirstLines(f, x)) == Pairs(Header(f))
    ensures LineAssignments(LastLines(f, x)) == Pairs(ImportBlock(f))
    ensures LineAssignments(x.middle) == []
  {
    HeaderFields(f);
    SectionAssigns(x.start, Header(f), x.checks);
    SectionAssigns(x.swap, ImportBlock(f), x.services);
    OrdinaryAssignNothing(x.middle);
  }

  /** What is heard of the script: its assignments, and its two documents. */
  lemma PiecesHeard(f: Fields, x: FixedLines)
    requires Printable(f) && AllOrdinary(x)
    ensures var heard := AllHeard(Pieces(f, x));
            && Assigned(heard) == Performed(f)
            && DocumentFor(heard, UnitOpening()) == Some(Unlines(UnitLines(f)))
            && DocumentFor(heard, SnippetOpening()) == Some(Unlines(SnippetLines(f)))
  {
    OpeningsDiffer();
    LinesAssign(f, x);
    var first, last := FirstLines(f, x), LastLines(f, x);
    var unit, snippet := Doc(UnitOpening(), SYSTEMD, UnitLines(f)), Doc(SnippetOpening(), CADDY, SnippetLines(f));
    AssembledHeard(first, unit, x.middle, snippet, last, unit.opening);
    AssembledHeard(first, unit, x.middle, snippet, last, snippet.opening);
    assert [] + Pairs(ImportBlock(f)) == Pairs(ImportBlock(f));
  }

  lemma {:induction false} LinesWellFormed(ls: seq<string>)
    requires forall l :: l in ls ==> Harmless(l)
    ensures forall p :: p in Lines(ls) ==> WellFormed(p)
    decreases ls
  {
    if ls != [] {
      assert Harmless(ls[0]);
      LinesWellFormed(ls[1..]);
    }
  }

  lemma DocsWellFormed(f: Fields)
    requires SingleLines(f)
    ensures WellFormed(Doc(UnitOpening(), SYSTEMD, UnitLines(f)))
    ensures WellFormed(Doc(SnippetOpening(), CADDY, SnippetLines(f)))
  {
    NamesAreNames();
    OpeningLineOpens(NAMES[6], SYSTEMD);
    OpeningLineOpens(NAMES[9], CADDY);
    OpeningIsOneLine(NAMES[6], SYSTEMD);
    OpeningIsOneLine(NAMES[9], CADDY);
    UnitLinesOk(f);
    SnippetLinesOk(f);
  }

  lemma OpeningIsOneLine(variable: string, delimiter: string)
    requires IsName(variable) && OneLine(delimiter)
    ensures OneLine(OpeningLine(variable, delimiter))
  {
    NameIsPlain([], variable);
    assert OneLine(variable) by {
      assert forall i :: 0 <= i < |variable| ==> Plain(variable[i]);
    }
  }

  lemma PiecesWellFormed(f: Fields, x: FixedLines)
    requires Printable(f) && AllOrdinary(x)
    ensures forall p :: p in Pieces(f, x) ==> WellFormed(p)
  {
    HeaderFields(f);
    BlockLinesHarmless(Header(f));
    BlockLinesHarmless(ImportBlock(f));
    DocsWellFormed(f);
    assert forall l :: l in x.start + x.checks + x.middle + x.swap + x.services ==> Harmless(l);
    LinesWellFormed(FirstLines(f, x));
    LinesWellFormed(x.middle);
    LinesWellFormed(LastLines(f, x));
  }

  /** A shell that reads the whole script finds the two documents in it, takes no line of them for a command and
      no command for a line of them, and works with exactly the fields the script was generated from. */
  lemma ScriptRoundTrip(f: Fields, x: FixedLines, parents: set<string>)
    requires Printable(f) && AllOrdinary(x)
    ensures ReadMeaning(ScriptText(f, x), parents) ==
            Some((ConfigOf(f, parents), Bootstrap.Stage(f.serverSource, f.contextqSource)))
  {
    PiecesWellFormed(f, x);
    ReadRendered(Pieces(f, x));
    PiecesHeard(f, x);
    VariablesSet(f);
    var env := Environment(Performed(f));
    assert seq(|NAMES|, i requires 0 <= i < |NAMES| => Value(env, NAMES[i])) == Values(f);
  }
}
