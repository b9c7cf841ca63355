/** What systemd and Caddy read in the files the bootstrap script writes. */
module Unit {
  import opened Text
  import opened Script
  import Paths

  function TextLines(text: string): seq<string>
    decreases |text|
  {
    var i := IndexOf(text, '\n');
    if text == "" then [] else if i == |text| then [text] else [text[..i]] + TextLines(text[i + 1..])
  }

  lemma {:induction false} LinesRead(lines: seq<string>)
    requires forall l :: l in lines ==> OneLine(l)
    ensures TextLines(Unlines(lines)) == lines
    decreases lines
  {
    if lines != [] {
      var line, rest := lines[0], Unlines(lines[1..]);
      assert line in lines;
      LinesRead(lines[1..]);
      IndexOfSeparator(line, '\n', rest);
      var text := line + ['\n'] + rest;
      assert text[..|line|] == line && text[|line| + 1..] == rest;
    }
  }

  predicate Sets(line: string, key: string) {
    |key| < |line| && line[..|key|] == key && line[|key|] == '='
  }

  /** The values of a setting, one for each line that sets it. */
  function Settings(lines: seq<string>, key: string): seq<string> {
    if lines == [] then []
    else (if Sets(lines[0], key) then [lines[0][|key| + 1..]] else []) + Settings(lines[1..], key)
  }

  lemma {:induction false} SettingsAppend(a: seq<string>, b: seq<string>, key: string)
    ensures Settings(a + b, key) == Settings(a, key) + Settings(b, key)
    decreases a
  {
    if a == [] {
      assert a + b == b;
    } else {
      assert (a + b)[1..] == a[1..] + b;
      SettingsAppend(a[1..], b, key);
    }
  }

  lemma {:induction false} NoSettings(lines: seq<string>, key: string)
    requires forall l :: l in lines ==> !Sets(l, key)
    ensures Settings(lines, key) == []
    decreases lines
  {
    if lines != [] {
      NoSettings(lines[1..], key);
    }
  }

  lemma OneSetting(before: seq<string>, line: string, after: seq<string>, key: string, value: string)
    requires line == key + ['='] + value
    requires forall l :: l in before + after ==> !Sets(l, key)
    ensures Settings(before + [line] + after, key) == [value]
  {
    SettingsAppend(before + [line], after, key);
    SettingsAppend(before, [line], key);
    NoSettings(before, key);
    NoSettings(after, key);
    assert line[..|key|] == key && line[|key| + 1..] == value;
    assert [line][1..] == [];
  }

  /** Two texts that differ somewhere. */
  lemma Differs(line: string, key: string, i: nat)
    requires i < |key| && i < |line| && line[i] != key[i]
    ensures !Sets(line, key)
  {
    if |key| < |line| {
      assert line[..|key|][i] == line[i];
    }
  }

  predicate Others(lines: seq<string>, c: char) {
    forall l :: l in lines ==> l == "" || l[0] != c
  }

  lemma OthersSetNothing(lines: seq<string>, key: string)
    requires key != "" && Others(lines, key[0])
    ensures forall l :: l in lines ==> !Sets(l, key)
  {
    forall l | l in lines ensures !Sets(l, key) {
      if l != "" {
        Differs(l, key, 0);
      }
    }
  }

  const USER: string := "User"
  const GROUP: string := "Group"
  const DIRECTORY: string := "WorkingDirectory"
  const COMMAND: string := "ExecStart"
  const PATHS: string := "ReadWritePaths"

  lemma FirstLetters(f: Fields)
    ensures Others(UnitSection(), 'U') && Others(UnitSection(), 'G') && Others(UnitSection(), 'E') && Others(UnitSection(), 'R')
    ensures Others(InstallSection(), 'U') && Others(InstallSection(), 'G') && Others(InstallSection(), 'E')
    ensures Others(InstallSection(), 'R')
    ensures Others(Hardening(f), 'G') && Others(Hardening(f), 'E') && Others(Hardening(f), 'W')
  {
  }

  predicate Silent(lines: seq<string>, key: string) {
    forall l :: l in lines ==> !Sets(l, key)
  }

  /** The sections without fields set none of these; neither do the lines with the same first letter. */
  lemma SilentLines(f: Fields)
    ensures Silent(UnitSection(), USER) && Silent(UnitSection(), GROUP) && Silent(UnitSection(), COMMAND)
    ensures Silent(UnitSection(), PATHS) && Silent(InstallSection(), USER) && Silent(InstallSection(), GROUP)
    ensures Silent(InstallSection(), COMMAND) && Silent(InstallSection(), PATHS)
    ensures Silent(Hardening(f), GROUP) && Silent(Hardening(f), COMMAND) && Silent(Hardening(f), DIRECTORY)
  {
    FirstLetters(f);
    OthersSetNothing(UnitSection(), USER);
    OthersSetNothing(UnitSection(), GROUP);
    OthersSetNothing(UnitSection(), COMMAND);
    OthersSetNothing(UnitSection(), PATHS);
    OthersSetNothing(InstallSection(), USER);
    OthersSetNothing(InstallSection(), GROUP);
    OthersSetNothing(InstallSection(), COMMAND);
    OthersSetNothing(InstallSection(), PATHS);
    OthersSetNothing(Hardening(f), GROUP);
    OthersSetNothing(Hardening(f), COMMAND);
    OthersSetNothing(Hardening(f), DIRECTORY);
  }

  /** Lines of which none starts with c but this one. */
  lemma SilentBut(lines: seq<string>, key: string, line: string)
    requires key != "" && !Sets(line, key) && forall l :: l in lines ==> l == "" || l[0] != key[0] || l == line
    ensures Silent(lines, key)
  {
    forall l | l in lines ensures !Sets(l, key) {
      if l != "" && l[0] != key[0] {
        Differs(l, key, 0);
      }
    }
  }

  lemma MaskIsNotUser(f: Fields)
    ensures Silent(Hardening(f), USER)
  {
    Differs("UMask=0027", USER, 1);
    SilentBut(Hardening(f), USER, "UMask=0027");
  }

  lemma WantsIsNotDirectory()
    ensures Silent(UnitSection(), DIRECTORY) && Silent(InstallSection(), DIRECTORY)
  {
    Differs("Wants=network-online.target", DIRECTORY, 1);
    SilentBut(UnitSection(), DIRECTORY, "Wants=network-online.target");
    Differs("WantedBy=multi-user.target", DIRECTORY, 1);
    SilentBut(InstallSection(), DIRECTORY, "WantedBy=multi-user.target");
  }

  function Restarts(): seq<string> {
    ["Restart=on-failure", "RestartSec=2s", "UMask=0027", "NoNewPrivileges=true", "PrivateTmp=true",
     "ProtectHome=true", "ProtectSystem=strict"]
  }

  lemma RestartIsNotPaths()
    ensures Silent(Restarts(), PATHS)
  {
    Differs("Restart=on-failure", PATHS, 2);
    Differs("RestartSec=2s", PATHS, 2);
    assert Silent(["Restart=on-failure", "RestartSec=2s"], PATHS);
    assert Others(["UMask=0027", "NoNewPrivileges=true", "PrivateTmp=true", "ProtectHome=true", "ProtectSystem=strict"], 'R');
    OthersSetNothing(["UMask=0027", "NoNewPrivileges=true", "PrivateTmp=true", "ProtectHome=true", "ProtectSystem=strict"], PATHS);
  }

  function Heads(): seq<string> {
    ["[Service]", "Type=simple"]
  }

  lemma UserSet(f: Fields)
    ensures Settings(UnitLines(f), USER) == [f.user]
  {
    var more := ["Group=" + f.user, "WorkingDirectory=" + f.dataRoot, ExecStart(f)];
    SilentLines(f);
    MaskIsNotUser(f);
    assert Others(Heads(), 'U') && Others(more, 'U');
    OthersSetNothing(Heads(), USER);
    OthersSetNothing(more, USER);
    var before, line, after := UnitSection() + Heads(), "User=" + f.user, more + Hardening(f) + InstallSection();
    assert line == USER + ['='] + f.user;
    OneSetting(before, line, after, USER, f.user);
    assert ServiceSection(f) == Heads() + [line] + more;
    assert UnitLines(f) == before + [line] + after;
  }

  lemma GroupSet(f: Fields)
    ensures Settings(UnitLines(f), GROUP) == [f.user]
  {
    var heads := Heads() + ["User=" + f.user];
    var more := ["WorkingDirectory=" + f.dataRoot, ExecStart(f)];
    SilentLines(f);
    assert Others(heads, 'G') && Others(more, 'G');
    OthersSetNothing(heads, GROUP);
    OthersSetNothing(more, GROUP);
    var before, line, after := UnitSection() + heads, "Group=" + f.user, more + Hardening(f) + InstallSection();
    assert line == GROUP + ['='] + f.user;
    OneSetting(before, line, after, GROUP, f.user);
    assert ServiceSection(f) == heads + [line] + more;
    assert UnitLines(f) == before + [line] + after;
  }

  lemma DirectoryAt(f: Fields)
    ensures UnitLines(f) ==
            UnitSection() + (Heads() + ["User=" + f.user, "Group=" + f.user]) + ["WorkingDirectory=" + f.dataRoot]
            + ([ExecStart(f)] + Hardening(f) + InstallSection())
  {
  }

  lemma DirectoryNeighbours(f: Fields)
    ensures Silent(Heads() + ["User=" + f.user, "Group=" + f.user], DIRECTORY) && Silent([ExecStart(f)], DIRECTORY)
  {
    var heads := Heads() + ["User=" + f.user, "Group=" + f.user];
    assert Others(heads, 'W') && Others([ExecStart(f)], 'W');
    OthersSetNothing(heads, DIRECTORY);
    OthersSetNothing([ExecStart(f)], DIRECTORY);
  }

  lemma DirectorySet(f: Fields)
    ensures Settings(UnitLines(f), DIRECTORY) == [f.dataRoot]
  {
    var heads, line := Heads() + ["User=" + f.user, "Group=" + f.user], "WorkingDirectory=" + f.dataRoot;
    SilentLines(f);
    WantsIsNotDirectory();
    DirectoryNeighbours(f);
    assert line == DIRECTORY + ['='] + f.dataRoot;
    OneSetting(UnitSection() + heads, line, [ExecStart(f)] + Hardening(f) + InstallSection(), DIRECTORY, f.dataRoot);
    DirectoryAt(f);
  }

  lemma PathsAt(f: Fields)
    ensures UnitLines(f) ==
            UnitSection() + ServiceSection(f) + Restarts() + ["ReadWritePaths=" + f.dataRoot] + ([""] + InstallSection())
  {
    assert Hardening(f) == Restarts() + ["ReadWritePaths=" + f.dataRoot] + [""];
  }

  lemma PathsNeighbours(f: Fields)
    ensures Silent(ServiceSection(f), PATHS) && Silent([""], PATHS)
  {
    assert Others(ServiceSection(f), 'R') && Others([""], 'R');
    OthersSetNothing(ServiceSection(f), PATHS);
    OthersSetNothing([""], PATHS);
  }

  lemma PathsSet(f: Fields)
    ensures Settings(UnitLines(f), PATHS) == [f.dataRoot]
  {
    var line := "ReadWritePaths=" + f.dataRoot;
    SilentLines(f);
    RestartIsNotPaths();
    PathsNeighbours(f);
    assert line == PATHS + ['='] + f.dataRoot;
    OneSetting(UnitSection() + ServiceSection(f) + Restarts(), line, [""] + InstallSection(), PATHS, f.dataRoot);
    PathsAt(f);
  }

  function Arguments(f: Fields): seq<string> {
    [f.serverBin, "serve", "--listen", f.listen, "--data-root", f.dataRoot, "--contextq-bin", f.contextqBin]
  }

  function Spaced(words: seq<string>): string {
    if words == [] then "" else if |words| == 1 then words[0] else words[0] + ([' '] + Spaced(words[1..]))
  }

  lemma SpacedCons(word: string, words: seq<string>)
    requires words != []
    ensures Spaced([word] + words) == word + ([' '] + Spaced(words))
  {
    assert ([word] + words)[1..] == words;
  }

  lemma SpacedArguments(f: Fields)
    ensures Spaced(Arguments(f)) ==
            f.serverBin + ([' '] + ("serve" + ([' '] + ("--listen" + ([' '] + (f.listen + ([' '] + ("--data-root" + ([' '] +
            (f.dataRoot + ([' '] + ("--contextq-bin" + ([' '] + f.contextqBin)))))))))))))
  {
    var a := Arguments(f);
    assert a[7..] == [a[7]];
    SpacedCons(a[6], a[7..]);
    SpacedCons(a[5], a[6..]);
    SpacedCons(a[4], a[5..]);
    SpacedCons(a[3], a[4..]);
    SpacedCons(a[2], a[3..]);
    SpacedCons(a[1], a[2..]);
    SpacedCons(a[0], a[1..]);
  }

  lemma Options()
    ensures " serve --listen " == [' '] + ("serve" + ([' '] + ("--listen" + [' '])))
    ensures " --data-root " == [' '] + ("--data-root" + [' '])
    ensures " --contextq-bin " == [' '] + ("--contextq-bin" + [' '])
  {
  }

  lemma Regrouped(a: string, b: string, c: string, d: string, serve: string, listen: string, root: string, bin: string)
    ensures a + ([' '] + (serve + ([' '] + (listen + [' '])))) + b + ([' '] + (root + [' '])) + c + ([' '] + (bin + [' '])) + d ==
            a + ([' '] + (serve + ([' '] + (listen + ([' '] + (b + ([' '] + (root + ([' '] + (c + ([' '] + (bin + ([' '] + d)))))))))))))
  {
  }

  lemma CommandSpelled(f: Fields)
    ensures ExecStart(f) ==
            "ExecStart=" + (f.serverBin + " serve --listen " + f.listen + " --data-root " + f.dataRoot + " --contextq-bin "
                            + f.contextqBin)
  {
  }

  lemma CommandIs(f: Fields)
    ensures ExecStart(f) == COMMAND + ['='] + Spaced(Arguments(f))
  {
    CommandSpelled(f);
    SpacedArguments(f);
    Options();
    Regrouped(f.serverBin, f.listen, f.dataRoot, f.contextqBin, "serve", "--listen", "--data-root", "--contextq-bin");
    assert "ExecStart=" == COMMAND + ['='];
  }

  lemma CommandAt(f: Fields)
    ensures UnitLines(f) ==
            UnitSection() + (Heads() + ["User=" + f.user, "Group=" + f.user, "WorkingDirectory=" + f.dataRoot])
            + [ExecStart(f)] + (Hardening(f) + InstallSection())
  {
  }

  lemma HeadsSilent(f: Fields)
    ensures Silent(Heads() + ["User=" + f.user, "Group=" + f.user, "WorkingDirectory=" + f.dataRoot], COMMAND)
  {
    var heads := Heads() + ["User=" + f.user, "Group=" + f.user, "WorkingDirectory=" + f.dataRoot];
    assert Others(heads, 'E');
    OthersSetNothing(heads, COMMAND);
  }

  lemma CommandSet(f: Fields)
    ensures Settings(UnitLines(f), COMMAND) == [Spaced(Arguments(f))]
  {
    var heads := Heads() + ["User=" + f.user, "Group=" + f.user, "WorkingDirectory=" + f.dataRoot];
    SilentLines(f);
    HeadsSilent(f);
    CommandIs(f);
    OneSetting(UnitSection() + heads, ExecStart(f), Hardening(f) + InstallSection(), COMMAND, Spaced(Arguments(f)));
    CommandAt(f);
  }

  lemma {:induction false} SpacedSplits(words: seq<string>)
    requires words != [] && forall w :: w in words ==> ' ' !in w
    ensures Paths.SplitAll(Spaced(words), ' ') == words
    decreases |words|
  {
    assert words[0] in words;
    if |words| == 1 {
      assert forall k :: 0 <= k < |words[0]| ==> words[0][k] != ' ';
    } else {
      var word, rest := words[0], Spaced(words[1..]);
      IndexOfSeparator(word, ' ', rest);
      var s := word + [' '] + rest;
      assert s == Spaced(words);
      assert s[..|word|] == word && s[|word| + 1..] == rest;
      SpacedSplits(words[1..]);
    }
  }

  /** The service runs as the user of the target, in its data root, the only place it may write to, and starts the
      server with these arguments; no other line sets them. */
  lemma UnitMeaning(f: Fields)
    requires SingleLines(f)
    ensures var lines := TextLines(Unlines(UnitLines(f)));
            && Settings(lines, "User") == [f.user] && Settings(lines, "Group") == [f.user]
            && Settings(lines, "WorkingDirectory") == [f.dataRoot] && Settings(lines, "ReadWritePaths") == [f.dataRoot]
            && |Settings(lines, "ExecStart")| == 1
            && ((forall t :: t in {f.serverBin, f.listen, f.dataRoot, f.contextqBin} ==> ' ' !in t) ==>
                  Paths.SplitAll(Settings(lines, "ExecStart")[0], ' ') ==
                  [f.serverBin, "serve", "--listen", f.listen, "--data-root", f.dataRoot, "--contextq-bin", f.contextqBin])
  {
    UnitLinesOk(f);
    LinesRead(UnitLines(f));
    UserSet(f);
    GroupSet(f);
    DirectorySet(f);
    PathsSet(f);
    CommandSet(f);
    if forall t :: t in {f.serverBin, f.listen, f.dataRoot, f.contextqBin} ==> ' ' !in t {
      ArgumentsPlain(f);
      SpacedSplits(Arguments(f));
    }
  }

  lemma ArgumentsPlain(f: Fields)
    requires forall t :: t in {f.serverBin, f.listen, f.dataRoot, f.contextqBin} ==> ' ' !in t
    ensures forall w :: w in Arguments(f) ==> ' ' !in w
  {
  }

  /** Caddy serves the site by handing its requests to the address the server listens on. */
  lemma SnippetMeaning(f: Fields)
    requires SingleLines(f)
    ensures var lines := TextLines(Unlines(SnippetLines(f)));
            && |lines| == 3 && lines[0] == f.site + [' ', '{'] && lines[2] == ['}']
            && lines[1] == ['\t'] + ("reverse_proxy" + ([' '] + f.listen))
  {
    SnippetLinesOk(f);
    LinesRead(SnippetLines(f));
    assert " {" == [' ', '{'] && "}" == ['}'];
    assert "\treverse_proxy " == ['\t'] + ("reverse_proxy" + [' ']);
  }
}
