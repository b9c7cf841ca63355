/** The bootstrap script as steps on the host it runs on. */
module Bootstrap {
  import opened Text

  /** What the script is generated from; parents are the directories install -D creates above the binaries. */
  datatype Config = Config(
    user: string, dataRoot: string, parents: set<string>,
    serverBin: string, contextqBin: string,
    unitPath: string, unitText: string,
    snippetDir: string, snippetPath: string, snippetText: string,
    caddyfile: string, importLine: string)

  /** The uploaded binaries and where one run finds them. */
  datatype Stage = Stage(server: string, contextq: string)
  datatype Binaries = Binaries(server: string, contextq: string)

  datatype Services = Services(
    loadedUnit: Option<string>, enabled: bool,
    running: Option<(string, string)>,                 // unit and server binary of the running service
    caddy: Option<(string, string)>)                   // Caddyfile and snippet Caddy has loaded

  datatype Host = Host(
    groups: set<string>, users: set<string>, dirs: set<string>,
    files: map<string, string>, services: Services)

  datatype Step =
    | EnsureGroup | EnsureUser | MakeDataRoot
    | InstallServer | InstallContextq | SwapServer | SwapContextq
    | WriteUnit | SwapUnit
    | MakeSnippetDir | WriteSnippet | SwapSnippet | AppendImport
    | DaemonReload | Enable | Restart | Validate | ReloadCaddy | IsActive

  const SCRIPT: seq<Step> := ACCOUNTS + BINARIES + UNIT + CADDY + SERVICES
  const ACCOUNTS: seq<Step> := [EnsureGroup, EnsureUser, MakeDataRoot]
  const BINARIES: seq<Step> := [InstallServer, InstallContextq, SwapServer, SwapContextq]
  const UNIT: seq<Step> := [WriteUnit, SwapUnit]
  const CADDY: seq<Step> := [MakeSnippetDir, WriteSnippet, SwapSnippet, AppendImport]
  const SERVICES: seq<Step> := [DaemonReload, Enable, Restart, Validate, ReloadCaddy, IsActive]

  function New(path: string): string {
    path + ".new"
  }

  function Read(h: Host, path: string): string {
    if path in h.files then h.files[path] else ""
  }

  /** grep -qF: the line occurs somewhere. A fixed string without newlines cannot span lines. */
  predicate Occurs(line: string, text: string) {
    exists i :: 0 <= i <= |text| && line <= text[i..]
  }

  function Appended(c: Config, text: string): string {
    if Occurs(c.importLine, text) then text else text + ("\n" + c.importLine + "\n")
  }

  function WriteFile(h: Host, path: string, text: string): Host {
    h.(files := h.files[path := text])
  }

  /** mv -f */
  function Move(h: Host, from: string, to: string): Host {
    if from in h.files then h.(files := (h.files - {from})[to := h.files[from]]) else h
  }

  /** One step that succeeds. */
  function Do(c: Config, stage: Stage, step: Step, h: Host): Host {
    match step
    case EnsureGroup => h.(groups := h.groups + {c.user})
    case EnsureUser => h.(users := h.users + {c.user})
    case MakeDataRoot => h.(dirs := h.dirs + {c.dataRoot})
    case InstallServer => WriteFile(h, New(c.serverBin), Read(h, stage.server)).(dirs := h.dirs + c.parents)
    case InstallContextq => WriteFile(h, New(c.contextqBin), Read(h, stage.contextq)).(dirs := h.dirs + c.parents)
    case SwapServer => Move(h, New(c.serverBin), c.serverBin)
    case SwapContextq => Move(h, New(c.contextqBin), c.contextqBin)
    case WriteUnit => WriteFile(h, New(c.unitPath), c.unitText)
    case SwapUnit => Move(h, New(c.unitPath), c.unitPath)
    case MakeSnippetDir => h.(dirs := h.dirs + {c.snippetDir})
    case WriteSnippet => WriteFile(h, New(c.snippetPath), c.snippetText)
    case SwapSnippet => Move(h, New(c.snippetPath), c.snippetPath)
    case AppendImport =>
      if c.caddyfile in h.files && Occurs(c.importLine, h.files[c.caddyfile]) then h
      else WriteFile(h, c.caddyfile, Read(h, c.caddyfile) + ("\n" + c.importLine + "\n"))
    case DaemonReload => h.(services := h.services.(loadedUnit := Some(Read(h, c.unitPath))))
    case Enable => h.(services := h.services.(enabled := true))
    case Restart =>
      h.(services := h.services.(running :=
        Some((if h.services.loadedUnit.Some? then h.services.loadedUnit.value else "", Read(h, c.serverBin)))))
    case Validate => h
    case ReloadCaddy => h.(services := h.services.(caddy := Some((Read(h, c.caddyfile), Read(h, c.snippetPath)))))
    case IsActive => h
  }

  function DoAll(c: Config, stage: Stage, steps: seq<Step>, h: Host): Host {
    if steps == [] then h else DoAll(c, stage, steps[1..], Do(c, stage, steps[0], h))
  }

  /** The upload in front of a run, and the exit trap behind it. */
  function Upload(stage: Stage, b: Binaries, h: Host): Host {
    h.(files := h.files[stage.server := b.server][stage.contextq := b.contextq])
  }

  function Cleanup(stage: Stage, h: Host): Host {
    h.(files := h.files - {stage.server, stage.contextq})
  }

  /** A run that stops after its first k steps. */
  function Partial(c: Config, stage: Stage, b: Binaries, k: nat, h: Host): Host
    requires k <= |SCRIPT|
  {
    Cleanup(stage, DoAll(c, stage, SCRIPT[..k], Upload(stage, b, h)))
  }

  /** A run that dies while it writes a new file: what is in that file is anything. */
  function Torn(c: Config, stage: Stage, b: Binaries, k: nat, path: string, garbage: string, h: Host): Host
    requires k <= |SCRIPT|
  {
    Cleanup(stage, WriteFile(DoAll(c, stage, SCRIPT[..k], Upload(stage, b, h)), path, garbage))
  }

  function Full(c: Config, stage: Stage, b: Binaries, h: Host): Host {
    Partial(c, stage, b, |SCRIPT|, h)
  }

  /** The files the script replaces, and the names it builds them under. */
  function Targets(c: Config): set<string> {
    {c.serverBin, c.contextqBin, c.unitPath, c.snippetPath}
  }

  function News(c: Config): set<string> {
    {New(c.serverBin), New(c.contextqBin), New(c.unitPath), New(c.snippetPath)}
  }

  /** All paths are different from each other, and there is one import line to look for. */
  predicate Distinct(c: Config, stage: Stage) {
    && c.serverBin != c.contextqBin && c.serverBin != c.unitPath && c.serverBin != c.snippetPath
    && c.contextqBin != c.unitPath && c.contextqBin != c.snippetPath && c.unitPath != c.snippetPath
    && Targets(c) !! News(c)
    && c.caddyfile !in Targets(c) + News(c)
    && c.importLine != "" && '\n' !in c.importLine && stage.server != stage.contextq
    && stage.server !in Targets(c) + News(c) + {c.caddyfile}
    && stage.contextq !in Targets(c) + News(c) + {c.caddyfile}
  }

  /** A host that holds none of a run's uploads. */
  predicate Unstaged(stage: Stage, h: Host) {
    stage.server !in h.files && stage.contextq !in h.files
  }

  // ---- What a full run leaves ----

  function FinalFiles(c: Config, b: Binaries, files: map<string, string>, caddy: string): map<string, string> {
    (files - News(c))[c.serverBin := b.server][c.contextqBin := b.contextq][c.unitPath := c.unitText]
                     [c.snippetPath := c.snippetText][c.caddyfile := caddy]
  }

  function Final(c: Config, b: Binaries, h: Host): Host {
    var caddy := Appended(c, Read(h, c.caddyfile));
    Host(h.groups + {c.user}, h.users + {c.user}, h.dirs + {c.dataRoot} + c.parents + {c.snippetDir},
         FinalFiles(c, b, h.files, caddy),
         Services(Some(c.unitText), true, Some((c.unitText, b.server)), Some((caddy, c.snippetText))))
  }

  lemma {:induction false} DoAllAppend(c: Config, stage: Stage, a: seq<Step>, b: seq<Step>, h: Host)
    ensures DoAll(c, stage, a + b, h) == DoAll(c, stage, b, DoAll(c, stage, a, h))
    decreases a
  {
    if a == [] {
      assert a + b == b;
    } else {
      assert (a + b)[1..] == a[1..] + b;
      DoAllAppend(c, stage, a[1..], b, Do(c, stage, a[0], h));
    }
  }

  lemma NewDiffers(p: string, q: string)
    requires p != q
    ensures New(p) != New(q)
  {
    assert New(p)[..|New(p)| - 4] == p && New(q)[..|New(q)| - 4] == q;
  }

  lemma NewsDiffer(c: Config, stage: Stage)
    requires Distinct(c, stage)
    ensures New(c.serverBin) != New(c.contextqBin)
  {
    NewDiffers(c.serverBin, c.contextqBin);
  }

  lemma Two(c: Config, stage: Stage, s1: Step, s2: Step, h: Host)
    ensures DoAll(c, stage, [s1, s2], h) == Do(c, stage, s2, Do(c, stage, s1, h))
  {
    assert [s1, s2][1..] == [s2] && [s2][1..] == [];
    assert DoAll(c, stage, [s2], Do(c, stage, s1, h)) == DoAll(c, stage, [], Do(c, stage, s2, Do(c, stage, s1, h)));
  }

  lemma AccountsBlock(c: Config, stage: Stage, h: Host)
    ensures DoAll(c, stage, ACCOUNTS, h) ==
            h.(groups := h.groups + {c.user}, users := h.users + {c.user}, dirs := h.dirs + {c.dataRoot})
  {
    Two(c, stage, EnsureGroup, EnsureUser, h);
    DoAllAppend(c, stage, [EnsureGroup, EnsureUser], [MakeDataRoot], h);
    assert [EnsureGroup, EnsureUser] + [MakeDataRoot] == ACCOUNTS;
    var m := h.(groups := h.groups + {c.user}, users := h.users + {c.user});
    assert [MakeDataRoot][1..] == [];
    assert DoAll(c, stage, [MakeDataRoot], m) == DoAll(c, stage, [], Do(c, stage, MakeDataRoot, m));
  }

  function SwappedBinaries(c: Config, b: Binaries, files: map<string, string>): map<string, string> {
    (files - {New(c.serverBin), New(c.contextqBin)})[c.serverBin := b.server][c.contextqBin := b.contextq]
  }

  lemma BinariesBlock(c: Config, stage: Stage, h: Host)
    requires Distinct(c, stage) && stage.server in h.files && stage.contextq in h.files
    ensures DoAll(c, stage, BINARIES, h) ==
            h.(dirs := h.dirs + c.parents,
               files := SwappedBinaries(c, Binaries(h.files[stage.server], h.files[stage.contextq]), h.files))
  {
    NewsDiffer(c, stage);
    Two(c, stage, InstallServer, InstallContextq, h);
    DoAllAppend(c, stage, [InstallServer, InstallContextq], [SwapServer, SwapContextq], h);
    assert [InstallServer, InstallContextq] + [SwapServer, SwapContextq] == BINARIES;
    var b := Binaries(h.files[stage.server], h.files[stage.contextq]);
    var m := h.(dirs := h.dirs + c.parents,
                files := h.files[New(c.serverBin) := b.server][New(c.contextqBin) := b.contextq]);
    assert Do(c, stage, InstallContextq, Do(c, stage, InstallServer, h)) == m;
    Two(c, stage, SwapServer, SwapContextq, m);
    var moved := Do(c, stage, SwapContextq, Do(c, stage, SwapServer, m));
    assert moved.files == SwappedBinaries(c, b, h.files);
  }

  /** Writing a file under its temporary name and moving it into place. */
  lemma Replace(h: Host, path: string, text: string)
    requires New(path) != path
    ensures Move(WriteFile(h, New(path), text), New(path), path) == h.(files := (h.files - {New(path)})[path := text])
  {
    var m := Move(WriteFile(h, New(path), text), New(path), path);
    assert m.files == (h.files - {New(path)})[path := text];
  }

  lemma UnitBlock(c: Config, stage: Stage, h: Host)
    requires Distinct(c, stage)
    ensures DoAll(c, stage, UNIT, h) == h.(files := (h.files - {New(c.unitPath)})[c.unitPath := c.unitText])
  {
    Two(c, stage, WriteUnit, SwapUnit, h);
    assert c.unitPath in Targets(c) && New(c.unitPath) in News(c);
    Replace(h, c.unitPath, c.unitText);
  }

  lemma CaddyBlock(c: Config, stage: Stage, h: Host)
    requires Distinct(c, stage)
    ensures DoAll(c, stage, CADDY, h) ==
            h.(dirs := h.dirs + {c.snippetDir},
               files := (h.files - {New(c.snippetPath)})[c.snippetPath := c.snippetText]
                        [c.caddyfile := Appended(c, Read(h, c.caddyfile))])
  {
    var m := h.(dirs := h.dirs + {c.snippetDir});
    Two(c, stage, MakeSnippetDir, WriteSnippet, h);
    DoAllAppend(c, stage, [MakeSnippetDir, WriteSnippet], [SwapSnippet, AppendImport], h);
    assert [MakeSnippetDir, WriteSnippet] + [SwapSnippet, AppendImport] == CADDY;
    var w := WriteFile(m, New(c.snippetPath), c.snippetText);
    Two(c, stage, SwapSnippet, AppendImport, w);
    assert c.snippetPath in Targets(c) && New(c.snippetPath) in News(c);
    Replace(m, c.snippetPath, c.snippetText);
    var r := m.(files := (h.files - {New(c.snippetPath)})[c.snippetPath := c.snippetText]);
    assert Read(r, c.caddyfile) == Read(h, c.caddyfile);
    ImportStep(c, stage, r);
  }

  lemma ImportStep(c: Config, stage: Stage, h: Host)
    requires c.importLine != ""
    ensures Do(c, stage, AppendImport, h) == WriteFile(h, c.caddyfile, Appended(c, Read(h, c.caddyfile)))
  {
    if c.caddyfile !in h.files {
      assert !Occurs(c.importLine, "");
    } else if Occurs(c.importLine, h.files[c.caddyfile]) {
      assert h.files[c.caddyfile := h.files[c.caddyfile]] == h.files;
    }
  }

  lemma ServicesBlock(c: Config, stage: Stage, h: Host)
    ensures DoAll(c, stage, SERVICES, h) ==
            h.(services := Services(Some(Read(h, c.unitPath)), true, Some((Read(h, c.unitPath), Read(h, c.serverBin))),
                                    Some((Read(h, c.caddyfile), Read(h, c.snippetPath)))))
  {
    assert SERVICES == [DaemonReload, Enable] + ([Restart, Validate] + [ReloadCaddy, IsActive]);
    ServiceSteps(c, stage, h);
  }

  lemma ServiceSteps(c: Config, stage: Stage, h: Host)
    ensures DoAll(c, stage, [DaemonReload, Enable] + ([Restart, Validate] + [ReloadCaddy, IsActive]), h) ==
            Do(c, stage, ReloadCaddy, Do(c, stage, Restart, Do(c, stage, Enable, Do(c, stage, DaemonReload, h))))
  {
    var b, d := [Restart, Validate], [ReloadCaddy, IsActive];
    DoAllAppend(c, stage, [DaemonReload, Enable], b + d, h);
    Two(c, stage, DaemonReload, Enable, h);
    var h1 := Do(c, stage, Enable, Do(c, stage, DaemonReload, h));
    DoAllAppend(c, stage, b, d, h1);
    Two(c, stage, Restart, Validate, h1);
    var h2 := Do(c, stage, Restart, h1);
    Two(c, stage, ReloadCaddy, IsActive, h2);
  }

  lemma AllBlocks(c: Config, stage: Stage, h: Host)
    ensures DoAll(c, stage, SCRIPT, h) ==
            DoAll(c, stage, SERVICES, DoAll(c, stage, CADDY, DoAll(c, stage, UNIT,
              DoAll(c, stage, BINARIES, DoAll(c, stage, ACCOUNTS, h)))))
  {
    DoAllAppend(c, stage, ACCOUNTS + BINARIES + UNIT + CADDY, SERVICES, h);
    DoAllAppend(c, stage, ACCOUNTS + BINARIES + UNIT, CADDY, h);
    DoAllAppend(c, stage, ACCOUNTS + BINARIES, UNIT, h);
    DoAllAppend(c, stage, ACCOUNTS, BINARIES, h);
  }

  /** A full run takes every host without uploads to one state, which depends on the host only through
      what the script does not own. */
  lemma FullIsFinal(c: Config, stage: Stage, b: Binaries, h: Host)
    requires Distinct(c, stage) && Unstaged(stage, h)
    ensures Full(c, stage, b, h) == Final(c, b, h)
  {
    assert SCRIPT[..|SCRIPT|] == SCRIPT;
    var h0 := Upload(stage, b, h);
    AllBlocks(c, stage, h0);
    AccountsBlock(c, stage, h0);
    var h1 := DoAll(c, stage, ACCOUNTS, h0);
    BinariesBlock(c, stage, h1);
    var h2 := DoAll(c, stage, BINARIES, h1);
    UnitBlock(c, stage, h2);
    var h3 := DoAll(c, stage, UNIT, h2);
    CaddyBlock(c, stage, h3);
    var h4 := DoAll(c, stage, CADDY, h3);
    ServicesBlock(c, stage, h4);
    FilesOfRun(c, stage, b, h.files, Appended(c, Read(h, c.caddyfile)));
    assert Read(h3, c.caddyfile) == Read(h, c.caddyfile);
  }

  lemma FilesOfRun(c: Config, stage: Stage, b: Binaries, files: map<string, string>, caddy: string)
    requires Distinct(c, stage) && stage.server !in files && stage.contextq !in files
    ensures var f1 := SwappedBinaries(c, b, files[stage.server := b.server][stage.contextq := b.contextq]);
            var f2 := (f1 - {New(c.unitPath)})[c.unitPath := c.unitText];
            var f3 := (f2 - {New(c.snippetPath)})[c.snippetPath := c.snippetText][c.caddyfile := caddy];
            && f3 - {stage.server, stage.contextq} == FinalFiles(c, b, files, caddy)
            && f3[c.unitPath] == c.unitText && f3[c.serverBin] == b.server && f3[c.snippetPath] == c.snippetText
  {
  }

  // ---- Between the start of a run and its end ----

  /** h is what some run has made of h0: it differs in what the script owns, and the Caddyfile is the old
      one or the old one with the import line. */
  ghost predicate Between(c: Config, stage: Stage, h0: Host, h: Host) {
    && h0.groups <= h.groups <= h0.groups + {c.user}
    && h0.users <= h.users <= h0.users + {c.user}
    && h0.dirs <= h.dirs <= h0.dirs + {c.dataRoot} + c.parents + {c.snippetDir}
    && (forall p :: p !in Targets(c) + News(c) + {c.caddyfile, stage.server, stage.contextq} ==>
          (p in h.files <==> p in h0.files) && (p in h.files ==> h.files[p] == h0.files[p]))
    && (|| (c.caddyfile in h.files && h.files[c.caddyfile] == Appended(c, Read(h0, c.caddyfile)))
        || (Read(h, c.caddyfile) == Read(h0, c.caddyfile) && (c.caddyfile in h.files <==> c.caddyfile in h0.files)))
  }

  lemma OccursAppended(c: Config, text: string)
    ensures Occurs(c.importLine, Appended(c, text)) && Appended(c, Appended(c, text)) == Appended(c, text)
  {
    if !Occurs(c.importLine, text) {
      var t := text + ("\n" + c.importLine + "\n");
      assert t[|text| + 1..] == c.importLine + "\n";
      assert c.importLine <= t[|text| + 1..];
    }
  }

  lemma DoBetween(c: Config, stage: Stage, step: Step, h0: Host, h: Host)
    requires Distinct(c, stage) && Between(c, stage, h0, h)
    ensures Between(c, stage, h0, Do(c, stage, step, h))
  {
    assert Targets(c) !! {c.caddyfile} && News(c) !! {c.caddyfile};
    if step == AppendImport {
      ImportStep(c, stage, h);
      OccursAppended(c, Read(h0, c.caddyfile));
    }
  }

  lemma {:induction false} DoAllBetween(c: Config, stage: Stage, steps: seq<Step>, h0: Host, h: Host)
    requires Distinct(c, stage) && Between(c, stage, h0, h)
    ensures Between(c, stage, h0, DoAll(c, stage, steps, h))
    decreases steps
  {
    if steps != [] {
      DoBetween(c, stage, steps[0], h0, h);
      DoAllBetween(c, stage, steps[1..], h0, Do(c, stage, steps[0], h));
    }
  }

  lemma CleanedBetween(c: Config, stage: Stage, b: Binaries, h0: Host, h: Host)
    requires Distinct(c, stage) && Unstaged(stage, h0) && Between(c, stage, h0, h)
    ensures Final(c, b, Cleanup(stage, h)) == Final(c, b, h0)
  {
    var h1 := Cleanup(stage, h);
    OccursAppended(c, Read(h0, c.caddyfile));
    assert Read(h1, c.caddyfile) == Read(h, c.caddyfile);
    CleanedFiles(c, stage, b, h0, h, Appended(c, Read(h0, c.caddyfile)));
  }

  lemma CleanedFiles(c: Config, stage: Stage, b: Binaries, h0: Host, h: Host, caddy: string)
    requires Distinct(c, stage) && Unstaged(stage, h0) && Between(c, stage, h0, h)
    ensures FinalFiles(c, b, Cleanup(stage, h).files, caddy) == FinalFiles(c, b, h0.files, caddy)
  {
  }

  // ---- Convergence ----

  /** Where a file that is not among those of a run's own stage stays away. */
  lemma CleanedIsUnstaged(c: Config, stage: Stage, other: Stage, h0: Host, h: Host)
    requires Distinct(c, stage) && Distinct(c, other) && Unstaged(other, h0) && Between(c, stage, h0, h)
    ensures Unstaged(other, Cleanup(stage, h))
  {
  }

  /** After any prefix of a run, which may have installed other binaries, a full run gives the same final
      state as if it had been the only one. */
  lemma ConvergesAfterPrefix(c: Config, first: Stage, second: Stage, old': Binaries, b: Binaries, k: nat, h: Host)
    requires Distinct(c, first) && Distinct(c, second) && Unstaged(first, h) && Unstaged(second, h) && k <= |SCRIPT|
    ensures Full(c, second, b, Partial(c, first, old', k, h)) == Full(c, second, b, h)
  {
    var m := DoAll(c, first, SCRIPT[..k], Upload(first, old', h));
    DoAllBetween(c, first, SCRIPT[..k], h, Upload(first, old', h));
    CleanedBetween(c, first, b, h, m);
    CleanedIsUnstaged(c, first, second, h, m);
    FullIsFinal(c, second, b, Cleanup(first, m));
    FullIsFinal(c, second, b, h);
  }

  /** The same holds when the first run died in the middle of writing one of its new files. */
  lemma ConvergesAfterTornWrite(c: Config, first: Stage, second: Stage, old': Binaries, b: Binaries, k: nat,
                                path: string, garbage: string, h: Host)
    requires Distinct(c, first) && Distinct(c, second) && Unstaged(first, h) && Unstaged(second, h) && k <= |SCRIPT|
    requires path in News(c)
    ensures Full(c, second, b, Torn(c, first, old', k, path, garbage, h)) == Full(c, second, b, h)
  {
    var m := DoAll(c, first, SCRIPT[..k], Upload(first, old', h));
    DoAllBetween(c, first, SCRIPT[..k], h, Upload(first, old', h));
    var t := WriteFile(m, path, garbage);
    assert Between(c, first, h, t);
    CleanedBetween(c, first, b, h, t);
    CleanedIsUnstaged(c, first, second, h, t);
    FullIsFinal(c, second, b, Cleanup(first, t));
    FullIsFinal(c, second, b, h);
  }

  lemma CleanupCommutes(c: Config, stage: Stage, b: Binaries, h: Host)
    requires Distinct(c, stage)
    ensures Cleanup(stage, Final(c, b, h)) == Final(c, b, Cleanup(stage, h))
  {
    var clean := Cleanup(stage, h);
    assert Read(clean, c.caddyfile) == Read(h, c.caddyfile);
    assert Cleanup(stage, Final(c, b, h)).files == Final(c, b, clean).files;
  }

  /** A run that is killed cannot clean up. A later one, whose uploads go elsewhere, ends in the same state
      but for the dead run's uploads. */
  lemma ConvergesAfterKill(c: Config, first: Stage, second: Stage, old': Binaries, b: Binaries, k: nat, h: Host)
    requires Distinct(c, first) && Distinct(c, second) && Unstaged(second, h) && Unstaged(first, h) && k <= |SCRIPT|
    requires {first.server, first.contextq} !! {second.server, second.contextq}
    ensures var killed := DoAll(c, first, SCRIPT[..k], Upload(first, old', h));
            Cleanup(first, Full(c, second, b, killed)) == Full(c, second, b, h)
  {
    var m := DoAll(c, first, SCRIPT[..k], Upload(first, old', h));
    DoAllBetween(c, first, SCRIPT[..k], h, Upload(first, old', h));
    CleanedBetween(c, first, b, h, m);
    KilledIsUnstaged(c, first, second, h, m);
    FullIsFinal(c, second, b, m);
    FullIsFinal(c, second, b, h);
    CleanupCommutes(c, first, b, m);
  }

  lemma KilledIsUnstaged(c: Config, stage: Stage, other: Stage, h0: Host, h: Host)
    requires Distinct(c, stage) && Distinct(c, other) && Unstaged(other, h0) && Between(c, stage, h0, h)
    requires {stage.server, stage.contextq} !! {other.server, other.contextq}
    ensures Unstaged(other, h)
  {
    var mine := {stage.server, stage.contextq};
    assert other.server !in mine && other.contextq !in mine;
  }

  /** What the append writes. */
  function ImportText(c: Config): string {
    "\n" + c.importLine + "\n"
  }

  /** A run that died while it appended to the Caddyfile: some part t of the text was written. */
  function TornAppend(c: Config, stage: Stage, b: Binaries, t: string, h: Host): Host {
    var m := DoAll(c, stage, SCRIPT[..APPEND], Upload(stage, b, h));
    Cleanup(stage, WriteFile(m, c.caddyfile, Read(m, c.caddyfile) + t))
  }

  const APPEND: nat := |ACCOUNTS| + |BINARIES| + |UNIT| + 3

  lemma AppendIsAt()
    ensures APPEND < |SCRIPT| && SCRIPT[APPEND] == AppendImport
  {
  }

  lemma {:induction false} CaddyfileUntouched(c: Config, stage: Stage, steps: seq<Step>, h: Host)
    requires Distinct(c, stage) && AppendImport !in steps
    ensures Read(DoAll(c, stage, steps, h), c.caddyfile) == Read(h, c.caddyfile)
    decreases steps
  {
    if steps != [] {
      CaddyfileUntouched(c, stage, steps[1..], Do(c, stage, steps[0], h));
    }
  }

  lemma NoAppendBefore()
    ensures AppendImport !in SCRIPT[..APPEND]
  {
    assert SCRIPT[..APPEND] == ACCOUNTS + BINARIES + UNIT + CADDY[..3];
  }

  /** A torn append is not repaired: the next run appends the whole text behind the part, or, when the part
      holds the line, leaves it without its newline. */
  lemma AppendedTorn(c: Config, text: string, t: string)
    requires !Occurs(c.importLine, text) && t <= ImportText(c)
    ensures Appended(c, text + t) == Appended(c, text) <==> t == "" || t == ImportText(c)
  {
    if t == "" {
      assert text + t == text;
    } else if t == ImportText(c) {
      OccursAppended(c, text);
    } else {
      assert |Appended(c, text)| == |text| + |ImportText(c)|;
    }
  }

  /** Where convergence ends: after a torn append, a later run ends where a single one does if and only if the
      append had written nothing or all of its text. */
  lemma ConvergesAfterTornAppend(c: Config, first: Stage, second: Stage, old': Binaries, b: Binaries, t: string, h: Host)
    requires Distinct(c, first) && Distinct(c, second) && Unstaged(first, h) && Unstaged(second, h)
    requires !Occurs(c.importLine, Read(h, c.caddyfile)) && t <= ImportText(c)
    ensures SCRIPT[APPEND] == AppendImport
    ensures Full(c, second, b, TornAppend(c, first, old', t, h)) == Full(c, second, b, h) <==>
            t == "" || t == ImportText(c)
  {
    var m := DoAll(c, first, SCRIPT[..APPEND], Upload(first, old', h));
    var text := Read(h, c.caddyfile);
    AppendIsAt();
    DoAllBetween(c, first, SCRIPT[..APPEND], h, Upload(first, old', h));
    NoAppendBefore();
    CaddyfileUntouched(c, first, SCRIPT[..APPEND], Upload(first, old', h));
    AppendedTorn(c, text, t);
    var torn := Cleanup(first, WriteFile(m, c.caddyfile, text + t));
    TornUnstaged(c, first, second, h, m, text + t);
    FullIsFinal(c, second, b, torn);
    FullIsFinal(c, second, b, h);
    TornFinal(c, first, b, h, m, text + t);
  }

  lemma TornUnstaged(c: Config, stage: Stage, other: Stage, h0: Host, h: Host, text: string)
    requires Distinct(c, stage) && Distinct(c, other) && Unstaged(other, h0) && Between(c, stage, h0, h)
    ensures Unstaged(other, Cleanup(stage, WriteFile(h, c.caddyfile, text)))
  {
  }

  /** The final states differ in the Caddyfile only. */
  lemma TornFinal(c: Config, stage: Stage, b: Binaries, h0: Host, h: Host, text: string)
    requires Distinct(c, stage) && Unstaged(stage, h0) && Between(c, stage, h0, h)
    ensures var torn := Final(c, b, Cleanup(stage, WriteFile(h, c.caddyfile, text)));
            torn == Final(c, b, h0) <==> Appended(c, text) == Appended(c, Read(h0, c.caddyfile))
  {
    var t := Cleanup(stage, WriteFile(h, c.caddyfile, text));
    assert Read(t, c.caddyfile) == text;
    TornFiles(c, stage, b, h0, h, text, Appended(c, text));
    assert Final(c, b, t).files[c.caddyfile] == Appended(c, text);
    assert Final(c, b, h0).files[c.caddyfile] == Appended(c, Read(h0, c.caddyfile));
  }

  lemma TornFiles(c: Config, stage: Stage, b: Binaries, h0: Host, h: Host, text: string, caddy: string)
    requires Distinct(c, stage) && Unstaged(stage, h0) && Between(c, stage, h0, h)
    ensures FinalFiles(c, b, Cleanup(stage, WriteFile(h, c.caddyfile, text)).files, caddy) == FinalFiles(c, b, h0.files, caddy)
  {
  }

  /** A full run leaves no temporary file behind, and every file is either the script's or untouched. */
  lemma NothingLeftBehind(c: Config, stage: Stage, b: Binaries, h: Host)
    requires Distinct(c, stage) && Unstaged(stage, h)
    ensures var after := Full(c, stage, b, h);
            && (forall p :: p in News(c) ==> p !in after.files)
            && Unstaged(stage, after)
            && Targets(c) <= after.files.Keys
            && after.files[c.serverBin] == b.server && after.files[c.contextqBin] == b.contextq
            && after.files[c.unitPath] == c.unitText && after.files[c.snippetPath] == c.snippetText
            && after.groups == h.groups + {c.user} && after.users == h.users + {c.user}
            && after.dirs == h.dirs + {c.dataRoot, c.snippetDir} + c.parents
            && (forall p :: p !in Targets(c) + News(c) + {c.caddyfile} ==>
                  (p in after.files <==> p in h.files) && (p in h.files ==> after.files[p] == h.files[p]))
  {
    FullIsFinal(c, stage, b, h);
  }

  function Times(c: Config, stage: Stage, b: Binaries, n: nat, h: Host): Host {
    if n == 0 then h else Full(c, stage, b, Times(c, stage, b, n - 1, h))
  }

  /** However often the script runs, the result is that of one run; in particular the import line is
      appended once if it was missing, and never if it was there. */
  lemma {:induction false} RunsAreIdempotent(c: Config, stage: Stage, b: Binaries, n: nat, h: Host)
    requires Distinct(c, stage) && Unstaged(stage, h) && n >= 1
    ensures Times(c, stage, b, n, h) == Full(c, stage, b, h)
    ensures Read(Times(c, stage, b, n, h), c.caddyfile) ==
            if Occurs(c.importLine, Read(h, c.caddyfile)) then Read(h, c.caddyfile)
            else Read(h, c.caddyfile) + ("\n" + c.importLine + "\n")
    decreases n
  {
    FullIsFinal(c, stage, b, h);
    assert Times(c, stage, b, 1, h) == Full(c, stage, b, Times(c, stage, b, 0, h));
    if n > 1 {
      RunsAreIdempotent(c, stage, b, n - 1, h);
      ConvergesAfterPrefix(c, stage, stage, b, b, |SCRIPT|, h);
    }
  }
}
