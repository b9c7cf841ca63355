/** The controller's saved keys against the key store of the server it administers. */
module Controller {
  import opened Text
  import opened Token
  import opened KeyList
  import opened Paths
  import opened Store

  /** The fields of a target that administration depends on; an empty key means none is saved. */
  datatype Target = Target(namespace: string, key: string)

  /** The saved targets, and the files of the server they all refer to. */
  datatype World = World(targets: map<string, Target>, files: Files)

  /** fault tells where the server's change fails; AfterRename is also a change whose answer is lost on the
      way. saves is false when the controller cannot write its configuration. */
  datatype Command =
    | RemoteInit(target: string, rawLabel: string, env: InitEnv, draw: Protocol.Draw, fault: Fault, saves: bool)
    | KeyAdd(target: string, rawLabel: string, noSave: bool, draw: Protocol.Draw, fault: Fault, saves: bool)
    | KeyRevoke(target: string, id: string, fault: Fault, saves: bool)

  // ---- What a command does ----

  /** Issues a key on the server and, if asked to, saves it in the target. */
  function AddKey(e: Primitives, root: string, w: World, name: string, rawLabel: string, draw: Protocol.Draw,
                  fault: Fault, save: bool): World
    requires root != "" && name in w.targets
  {
    var t := w.targets[name];
    match IssueAnswer(e, w.files, root, t.namespace, rawLabel, draw)
    case Refused(_) => w
    case Ok(issued) =>
      IssueAccepts(e, w.files, root, t.namespace, rawLabel, draw);
      World(if fault == NoFault && save then w.targets[name := t.(key := issued.token)] else w.targets,
            if fault == BeforeRename then w.files else WithKey(w.files, root, t.namespace, issued.key))
  }

  lemma IssueAccepts(e: Primitives, files: Files, root: string, name: string, rawLabel: string, draw: Protocol.Draw)
    requires root != "" && IssueAnswer(e, files, root, name, rawLabel, draw).Ok?
    ensures Accepted(name)
  {
  }

  function Do(e: Primitives, root: string, w: World, cmd: Command): World
    requires root != ""
  {
    if cmd.target !in w.targets then w
    else
      var t := w.targets[cmd.target];
      match cmd
      case RemoteInit(name, rawLabel, env, draw, fault, saves) =>
        var m := w.(files := InitLeaves(w.files, root, t.namespace, env));
        if InitAnswer(w.files, root, t.namespace, env).Ok? && |t.key| == 0
        then AddKey(e, root, m, name, rawLabel, draw, fault, saves) else m
      case KeyAdd(name, rawLabel, noSave, draw, fault, saves) =>
        if |rawLabel| == 0 then w else AddKey(e, root, w, name, rawLabel, draw, fault, saves && !noSave)
      case KeyRevoke(name, id, fault, saves) =>
        match RevokeAnswer(w.files, root, t.namespace, id)
        case Refused(_) => w
        case Ok(_) =>
          World(if fault == NoFault && ControllerKeyId(t.key) == id && saves then w.targets[name := t.(key := "")] else w.targets,
                if fault == BeforeRename then w.files else WithoutKey(w.files, root, t.namespace, id))
  }

  function Run(e: Primitives, root: string, w: World, cmds: seq<Command>): World
    requires root != ""
  {
    if cmds == [] then w else Do(e, root, Run(e, root, w, cmds[..|cmds| - 1]), cmds[|cmds| - 1])
  }

  // ---- Agreement ----

  /** No key is saved, or the server accepts the saved one. */
  predicate Live(e: Primitives, root: string, files: Files, t: Target)
    requires root != ""
  {
    |t.key| == 0 || AuthAnswer(e, files, root, t.namespace, t.key).Ok?
  }

  predicate Agree(e: Primitives, root: string, w: World)
    requires root != ""
  {
    forall name :: name in w.targets ==> Live(e, root, w.files, w.targets[name])
  }

  predicate OneTargetEach(w: World) {
    forall name, other :: name in w.targets && other in w.targets && name != other ==>
      w.targets[name].namespace != w.targets[other].namespace
  }

  predicate CleanRoot(root: string) {
    Rooted(root) && Clean(root) == root
  }

  lemma LiveMeans(e: Primitives, root: string, files: Files, t: Target)
    requires CleanRoot(root) && |t.key| > 0
    ensures Live(e, root, files, t) <==>
            && Accepted(t.namespace) && NsPath(root, t.namespace) in files && StoreKeyId(t.key).Some?
            && var m := KeyMap(files, root, t.namespace);
               StoreKeyId(t.key).value in m && HexDecode(m[StoreKeyId(t.key).value].digest) == Some(e.sha256(t.key))
  {
    if AuthAnswer(e, files, root, t.namespace, t.key).Ok? {
      AuthenticateIsLookup(e, files, root, t.namespace, t.key, AuthAnswer(e, files, root, t.namespace, t.key).value);
    } else if Accepted(t.namespace) && NsPath(root, t.namespace) in files && StoreKeyId(t.key).Some? {
      var m, id := KeyMap(files, root, t.namespace), StoreKeyId(t.key).value;
      if id in m {
        AuthenticateIsLookup(e, files, root, t.namespace, t.key, m[id].(digest := ""));
      }
    }
  }

  lemma MetadataKept(files: Files, root: string, name: string, keys: seq<Key>, other: string)
    requires CleanRoot(root) && Accepted(name) && Accepted(other)
    ensures NsPath(root, other) in WithKeys(files, root, name, keys) <==> NsPath(root, other) in files
  {
    PathsDiffer(root, name);
    if other != name {
      FilesDisjoint(root, name, other, KEYS_FILE, NAMESPACE_FILE);
    }
  }

  /** Issuing a key keeps every saved key that was live, whether or not its ID is fresh. */
  lemma LiveAfterIssue(e: Primitives, root: string, files: Files, name: string, key: Key, t: Target)
    requires CleanRoot(root) && Accepted(name) && Live(e, root, files, t)
    ensures Live(e, root, WithKey(files, root, name, key), t)
  {
    if |t.key| > 0 {
      LiveMeans(e, root, files, t);
      LiveMeans(e, root, WithKey(files, root, name, key), t);
      MetadataKept(files, root, name, KeysIn(files, root, name) + [key], t.namespace);
      IssueInserts(files, root, name, key, t.namespace);
    }
  }

  /** Revoking an ID keeps exactly the saved keys of other namespaces and of other IDs. */
  lemma LiveAfterRevoke(e: Primitives, root: string, files: Files, name: string, id: string, t: Target)
    requires CleanRoot(root) && Accepted(name) && Live(e, root, files, t) && |t.key| > 0
    ensures Live(e, root, WithoutKey(files, root, name, id), t) <==> t.namespace != name || StoreKeyId(t.key) != Some(id)
  {
    LiveMeans(e, root, files, t);
    LiveMeans(e, root, WithoutKey(files, root, name, id), t);
    MetadataKept(files, root, name, Without(KeysIn(files, root, name), id), t.namespace);
    RevokeRemoves(files, root, name, id, t.namespace);
  }

  /** Init keeps them however far it gets. */
  lemma LiveAfterInit(e: Primitives, root: string, files: Files, name: string, env: InitEnv, t: Target)
    requires CleanRoot(root) && Live(e, root, files, t)
    ensures Live(e, root, InitLeaves(files, root, name, env), t)
  {
    if |t.key| > 0 && Accepted(name) {
      LiveMeans(e, root, files, t);
      InitKeeps(files, root, name, env, t.namespace);
      LiveMeans(e, root, InitLeaves(files, root, name, env), t);
    }
  }

  /** The ID that was drawn is in use, by a key with another digest. */
  predicate Taken(e: Primitives, root: string, files: Files, name: string, draw: Protocol.Draw)
    requires root != ""
  {
    Accepted(name) &&
    var m, id := KeyMap(files, root, name), KeyName(draw.id);
    id in m && HexDecode(m[id].digest) != Some(e.sha256(Print(draw.id, draw.secret)))
  }

  /** A key is live as soon as it is issued, and so when it is saved, exactly if its ID was not taken. */
  lemma IssuedIsLive(e: Primitives, root: string, files: Files, name: string, rawLabel: string, draw: Protocol.Draw)
    requires CleanRoot(root) && Protocol.ValidDraw(draw)
    requires IssueAnswer(e, files, root, name, rawLabel, draw).Ok? && Accepted(name)
    ensures var issued := IssueAnswer(e, files, root, name, rawLabel, draw).value;
            && |issued.token| > 0
            && (Live(e, root, WithKey(files, root, name, issued.key), Target(name, issued.token)) <==>
                !Taken(e, root, files, name, draw))
  {
    var issued := IssueAnswer(e, files, root, name, rawLabel, draw).value;
    RecordMatches(e, draw.id, draw.secret, TrimSpace(rawLabel), draw.now);
    PrintNotEmpty(draw.id, draw.secret);
    LiveExactly(e, root, files, name, issued.key, issued.token);
  }

  lemma LiveExactly(e: Primitives, root: string, files: Files, name: string, key: Key, token: string)
    requires CleanRoot(root) && Accepted(name) && NsPath(root, name) in files
    requires Matches(e, key, token) && |token| > 0
    ensures var m := KeyMap(files, root, name);
            Live(e, root, WithKey(files, root, name, key), Target(name, token)) <==>
            (key.id in m ==> HexDecode(m[key.id].digest) == Some(e.sha256(token)))
  {
    LiveMeans(e, root, WithKey(files, root, name, key), Target(name, token));
    MetadataKept(files, root, name, KeysIn(files, root, name) + [key], name);
    IssueInserts(files, root, name, key, name);
  }

  lemma AddKeyAgrees(e: Primitives, root: string, w: World, name: string, rawLabel: string, draw: Protocol.Draw,
                     fault: Fault, save: bool)
    requires CleanRoot(root) && Agree(e, root, w) && name in w.targets && Protocol.ValidDraw(draw)
    ensures var t := w.targets[name];
            Agree(e, root, AddKey(e, root, w, name, rawLabel, draw, fault, save)) <==>
            !(fault == NoFault && save && IssueAnswer(e, w.files, root, t.namespace, rawLabel, draw).Ok?
              && Taken(e, root, w.files, t.namespace, draw))
  {
    var t := w.targets[name];
    var answer := IssueAnswer(e, w.files, root, t.namespace, rawLabel, draw);
    if answer.Ok? && fault != BeforeRename {
      IssueAccepts(e, w.files, root, t.namespace, rawLabel, draw);
      IssuedIsLive(e, root, w.files, t.namespace, rawLabel, draw);
      var files := WithKey(w.files, root, t.namespace, answer.value.key);
      forall other | other in w.targets ensures Live(e, root, files, w.targets[other]) {
        LiveAfterIssue(e, root, w.files, t.namespace, answer.value.key, w.targets[other]);
      }
      AgreeWith(e, root, World(w.targets, files), name, Target(t.namespace, answer.value.token));
    }
  }

  lemma AgreeWith(e: Primitives, root: string, w: World, name: string, t: Target)
    requires root != "" && Agree(e, root, w)
    ensures Agree(e, root, w.(targets := w.targets[name := t])) <==> Live(e, root, w.files, t)
  {
    var w' := w.(targets := w.targets[name := t]);
    assert name in w'.targets && w'.targets[name] == t;
  }

  // ---- Revocation ----

  predicate SavesKey(t: Target, namespace: string, id: string) {
    t.namespace == namespace && StoreKeyId(t.key) == Some(id)
  }

  /** A revocation that takes effect on the server while some target still saves the key: another target of the
      namespace, or this one if the controller does not learn of the success or cannot write it down. */
  predicate Orphans(root: string, w: World, cmd: Command)
    requires root != ""
  {
    && cmd.KeyRevoke? && cmd.target in w.targets && cmd.fault != BeforeRename
    && RevokeAnswer(w.files, root, w.targets[cmd.target].namespace, cmd.id).Ok?
    && exists other :: other in w.targets && SavesKey(w.targets[other], w.targets[cmd.target].namespace, cmd.id)
         && !(other == cmd.target && cmd.fault == NoFault && cmd.saves)
  }

  /** A revocation that takes effect leaves controller and server in agreement exactly if the revoked key is
      saved in no target of that namespace, other than this one when its success is known and can be saved. */
  lemma RevokeAgreesExactly(e: Primitives, root: string, w: World, name: string, id: string, fault: Fault, saves: bool)
    requires CleanRoot(root) && Agree(e, root, w) && name in w.targets && fault != BeforeRename
    requires RevokeAnswer(w.files, root, w.targets[name].namespace, id).Ok?
    ensures Agree(e, root, Do(e, root, w, KeyRevoke(name, id, fault, saves))) <==>
            (forall other :: other in w.targets && SavesKey(w.targets[other], w.targets[name].namespace, id) ==>
               other == name && fault == NoFault && saves)
  {
    var t := w.targets[name];
    var w' := Do(e, root, w, KeyRevoke(name, id, fault, saves));
    RevokeIs(e, root, w, name, id, fault, saves);
    forall other | other in w.targets
      ensures Live(e, root, w'.files, w'.targets[other]) <==>
              (SavesKey(w.targets[other], t.namespace, id) ==> other == name && fault == NoFault && saves)
    {
      LiveAfterCommand(e, root, w, name, id, fault == NoFault && saves, other);
    }
    assert w'.targets.Keys == w.targets.Keys;
  }

  lemma RevokeIs(e: Primitives, root: string, w: World, name: string, id: string, fault: Fault, saves: bool)
    requires root != "" && name in w.targets && RevokeAnswer(w.files, root, w.targets[name].namespace, id).Ok?
    requires fault != BeforeRename
    ensures Accepted(w.targets[name].namespace)
    ensures var t := w.targets[name];
            Do(e, root, w, KeyRevoke(name, id, fault, saves)) ==
            World(if ControllerKeyId(t.key) == id && fault == NoFault && saves then w.targets[name := t.(key := "")] else w.targets,
                  WithoutKey(w.files, root, t.namespace, id))
  {
  }

  lemma LiveAfterCommand(e: Primitives, root: string, w: World, name: string, id: string, saved: bool, other: string)
    requires CleanRoot(root) && Agree(e, root, w) && name in w.targets && other in w.targets
    requires Accepted(w.targets[name].namespace)
    ensures var t, u := w.targets[name], w.targets[other];
            var cleared := other == name && ControllerKeyId(t.key) == id && saved;
            Live(e, root, WithoutKey(w.files, root, t.namespace, id), if cleared then u.(key := "") else u) <==>
            (SavesKey(u, t.namespace, id) ==> other == name && saved)
  {
    var u := w.targets[other];
    assert Live(e, root, w.files, u);
    NoKeyNoId();
    ParsersAgree(u.key);
    if |u.key| > 0 {
      LiveMeans(e, root, w.files, u);
      LiveAfterRevoke(e, root, w.files, w.targets[name].namespace, id, u);
    }
  }

  lemma NoKeyNoId()
    ensures StoreKeyId("") == None
  {
  }

  // ---- Commands and runs ----

  predicate DrawsValid(cmd: Command) {
    !cmd.KeyRevoke? ==> Protocol.ValidDraw(cmd.draw)
  }

  /** A command that issues a key and saves it although its ID was taken: IssueKey does not look for that. */
  predicate Collides(e: Primitives, root: string, w: World, cmd: Command)
    requires root != ""
  {
    cmd.target in w.targets && !cmd.KeyRevoke? && cmd.fault == NoFault && cmd.saves &&
    var t := w.targets[cmd.target];
    && Taken(e, root, w.files, t.namespace, cmd.draw)
    && match cmd
       case RemoteInit(_, rawLabel, env, draw, _, _) =>
         |t.key| == 0 && InitAnswer(w.files, root, t.namespace, env).Ok?
         && IssueAnswer(e, InitLeaves(w.files, root, t.namespace, env), root, t.namespace, rawLabel, draw).Ok?
       case KeyAdd(_, rawLabel, noSave, draw, _, _) =>
         |rawLabel| > 0 && !noSave && IssueAnswer(e, w.files, root, t.namespace, rawLabel, draw).Ok?
       case KeyRevoke(_, _, _, _) => false
  }

  lemma FreshNeverCollides(e: Primitives, root: string, w: World, cmd: Command)
    requires root != "" && cmd.target in w.targets && !cmd.KeyRevoke?
    requires Accepted(w.targets[cmd.target].namespace) ==>
               KeyName(cmd.draw.id) !in KeyMap(w.files, root, w.targets[cmd.target].namespace)
    ensures !Collides(e, root, w, cmd)
  {
  }

  lemma TakenAfterInit(e: Primitives, root: string, files: Files, name: string, env: InitEnv, draw: Protocol.Draw)
    requires CleanRoot(root)
    ensures Taken(e, root, InitLeaves(files, root, name, env), name, draw) <==> Taken(e, root, files, name, draw)
  {
    if Accepted(name) {
      InitKeeps(files, root, name, env, name);
    }
  }

  /** Whatever fails on either side: a command leaves controller and server in agreement if and only if it is
      neither a revocation that leaves a saved key behind nor the issue of a key whose ID was taken. */
  lemma DoAgreesExactly(e: Primitives, root: string, w: World, cmd: Command)
    requires CleanRoot(root) && Agree(e, root, w) && DrawsValid(cmd)
    ensures Agree(e, root, Do(e, root, w, cmd)) <==> !Orphans(root, w, cmd) && !Collides(e, root, w, cmd)
  {
    if cmd.target in w.targets {
      var t := w.targets[cmd.target];
      match cmd
      case RemoteInit(name, rawLabel, env, draw, fault, saves) =>
        var m := w.(files := InitLeaves(w.files, root, t.namespace, env));
        forall other | other in m.targets ensures Live(e, root, m.files, m.targets[other]) {
          LiveAfterInit(e, root, w.files, t.namespace, env, w.targets[other]);
        }
        TakenAfterInit(e, root, w.files, t.namespace, env, draw);
        AddKeyAgrees(e, root, m, name, rawLabel, draw, fault, saves);
      case KeyAdd(name, rawLabel, noSave, draw, fault, saves) =>
        AddKeyAgrees(e, root, w, name, rawLabel, draw, fault, saves && !noSave);
      case KeyRevoke(name, id, fault, saves) =>
        if RevokeAnswer(w.files, root, t.namespace, id).Ok? && fault != BeforeRename {
          RevokeAgreesExactly(e, root, w, name, id, fault, saves);
        }
    }
  }

  lemma DoAgreesIf(e: Primitives, root: string, w: World, cmd: Command)
    requires CleanRoot(root) && DrawsValid(cmd)
    ensures Agree(e, root, w) ==>
              (Agree(e, root, Do(e, root, w, cmd)) <==> !Orphans(root, w, cmd) && !Collides(e, root, w, cmd))
  {
    if Agree(e, root, w) {
      DoAgreesExactly(e, root, w, cmd);
    }
  }

  lemma AddKeepsTargets(e: Primitives, root: string, w: World, name: string, rawLabel: string, draw: Protocol.Draw,
                        fault: Fault, save: bool)
    requires root != "" && name in w.targets
    ensures var w' := AddKey(e, root, w, name, rawLabel, draw, fault, save);
            w'.targets.Keys == w.targets.Keys
            && forall other :: other in w.targets ==> w'.targets[other].namespace == w.targets[other].namespace
  {
  }

  lemma DoKeepsTargets(e: Primitives, root: string, w: World, cmd: Command)
    requires root != ""
    ensures Do(e, root, w, cmd).targets.Keys == w.targets.Keys
    ensures forall name :: name in w.targets ==> Do(e, root, w, cmd).targets[name].namespace == w.targets[name].namespace
  {
    if cmd.target in w.targets {
      match cmd
      case RemoteInit(name, rawLabel, env, draw, fault, saves) =>
        var m := w.(files := InitLeaves(w.files, root, w.targets[name].namespace, env));
        AddKeepsTargets(e, root, m, name, rawLabel, draw, fault, saves);
      case KeyAdd(name, rawLabel, noSave, draw, fault, saves) =>
        AddKeepsTargets(e, root, w, name, rawLabel, draw, fault, saves && !noSave);
      case KeyRevoke(_, _, _, _) =>
    }
  }

  /** A revocation whose change is made is also learned of and written down. */
  predicate NotCutShort(cmd: Command) {
    cmd.KeyRevoke? ==> cmd.fault == BeforeRename || (cmd.fault == NoFault && cmd.saves)
  }

  ghost predicate NoneCollides(e: Primitives, root: string, w: World, cmds: seq<Command>)
    requires root != ""
  {
    forall i :: 0 <= i < |cmds| ==> DrawsValid(cmds[i]) && !Collides(e, root, Run(e, root, w, cmds[..i]), cmds[i])
  }

  lemma NoneBefore(e: Primitives, root: string, w: World, cmds: seq<Command>)
    requires root != "" && cmds != [] && NoneCollides(e, root, w, cmds)
    ensures NoneCollides(e, root, w, cmds[..|cmds| - 1])
  {
    var init := cmds[..|cmds| - 1];
    forall i | 0 <= i < |init| ensures DrawsValid(init[i]) && !Collides(e, root, Run(e, root, w, init[..i]), init[i]) {
      assert init[..i] == cmds[..i];
    }
  }

  lemma NeverOrphans(root: string, w: World, cmd: Command)
    requires root != "" && OneTargetEach(w) && NotCutShort(cmd)
    ensures !Orphans(root, w, cmd)
  {
  }

  /** Controller and server stay in agreement over every run of remote-init, key add and key revoke, as long as
      each namespace has one target and no command meets a taken ID. remote-init and key add may fail
      anywhere, on the server or in saving; a revocation may fail before its change is made. */
  lemma {:induction false} RunAgrees(e: Primitives, root: string, w: World, cmds: seq<Command>)
    requires CleanRoot(root) && Agree(e, root, w) && OneTargetEach(w) && NoneCollides(e, root, w, cmds)
    requires forall i :: 0 <= i < |cmds| ==> NotCutShort(cmds[i])
    ensures Agree(e, root, Run(e, root, w, cmds)) && OneTargetEach(Run(e, root, w, cmds))
    decreases |cmds|
  {
    if cmds != [] {
      var n := |cmds| - 1;
      var m := Run(e, root, w, cmds[..n]);
      NoneBefore(e, root, w, cmds);
      RunAgrees(e, root, w, cmds[..n]);
      NeverOrphans(root, m, cmds[n]);
      DoAgreesExactly(e, root, m, cmds[n]);
      DoKeepsTargets(e, root, m, cmds[n]);
    }
  }

  // ---- Two targets for one namespace ----

  function NewFiles(root: string, name: string): Files
    requires root != "" && Accepted(name)
  {
    InitLeaves(map[], root, name, InitEnv(true, 0, NoFault, NoFault))
  }

  /** The files of a new namespace with one key, and two targets that both save it. */
  function Shared(root: string, name: string, key: Key, token: string, one: string, two: string): World
    requires root != "" && Accepted(name)
  {
    World(map[one := Target(name, token), two := Target(name, token)], WithKey(NewFiles(root, name), root, name, key))
  }

  lemma NewNamespace(root: string, name: string)
    requires CleanRoot(root) && Accepted(name)
    ensures NsPath(root, name) in NewFiles(root, name) && ReadKeys(NewFiles(root, name), KeysPath(root, name)) == Ok([])
  {
    PathsDiffer(root, name);
  }

  /** Controller and server agree; a revocation through one target succeeds in every part; and the other target
      is left with a dead key. */
  lemma SharedKeyIsOrphaned(e: Primitives, root: string, name: string, key: Key, token: string, one: string, two: string)
    requires CleanRoot(root) && Accepted(name) && Matches(e, key, token) && |token| > 0 && one != two
    ensures var w, cmd := Shared(root, name, key, token, one, two), KeyRevoke(one, key.id, NoFault, true);
            Agree(e, root, w) && Orphans(root, w, cmd) && !Agree(e, root, Do(e, root, w, cmd))
  {
    var files := NewFiles(root, name);
    var w, cmd := Shared(root, name, key, token, one, two), KeyRevoke(one, key.id, NoFault, true);
    NewNamespace(root, name);
    LiveExactly(e, root, files, name, key, token);
    MetadataKept(files, root, name, [] + [key], name);
    assert [] + [key] == [key];
    SharedOrphans(root, w, name, key, token, one, two);
    DoAgreesExactly(e, root, w, cmd);
  }

  lemma SharedOrphans(root: string, w: World, name: string, key: Key, token: string, one: string, two: string)
    requires CleanRoot(root) && Accepted(name) && StoreKeyId(token) == Some(key.id) && one != two
    requires w.targets == map[one := Target(name, token), two := Target(name, token)]
    requires NsPath(root, name) in w.files && ReadKeys(w.files, KeysPath(root, name)) == Ok([key])
    ensures Orphans(root, w, KeyRevoke(one, key.id, NoFault, true))
  {
    assert key in [key];
    assert SavesKey(w.targets[two], name, key.id);
  }

  // ---- When remote-init issues a key ----

  lemma KeysAfterIssue(files: Files, root: string, name: string, key: Key, other: string)
    requires CleanRoot(root) && Accepted(name) && Accepted(other)
    ensures KeysIn(WithKey(files, root, name, key), root, other) ==
            if other == name then KeysIn(files, root, name) + [key] else KeysIn(files, root, other)
  {
    if other != name {
      OthersUntouched(files, root, name, KeysIn(files, root, name) + [key], other);
    }
  }

  lemma AddKeyChanges(e: Primitives, root: string, w: World, target: string, rawLabel: string, draw: Protocol.Draw,
                      fault: Fault, save: bool, name: string)
    requires CleanRoot(root) && target in w.targets && Accepted(name)
    ensures var t := w.targets[target];
            var issue := IssueAnswer(e, w.files, root, t.namespace, rawLabel, draw);
            KeysIn(AddKey(e, root, w, target, rawLabel, draw, fault, save).files, root, name) ==
            KeysIn(w.files, root, name) +
            if name == t.namespace && issue.Ok? && fault != BeforeRename then [issue.value.key] else []
  {
    var t := w.targets[target];
    var issue := IssueAnswer(e, w.files, root, t.namespace, rawLabel, draw);
    assert KeysIn(w.files, root, name) + [] == KeysIn(w.files, root, name);
    if issue.Ok? {
      IssueAccepts(e, w.files, root, t.namespace, rawLabel, draw);
      KeysAfterIssue(w.files, root, t.namespace, issue.value.key, name);
    }
  }

  /** remote-init adds a key to a namespace exactly when it is its target's, none is saved there, and both the
      initialisation and the issue get that far; otherwise no namespace's keys change. */
  lemma InitIssuesOnlyWithoutKey(e: Primitives, root: string, w: World, cmd: Command, name: string)
    requires CleanRoot(root) && cmd.RemoteInit? && cmd.target in w.targets && Accepted(name)
    ensures var t, files := w.targets[cmd.target], InitLeaves(w.files, root, w.targets[cmd.target].namespace, cmd.env);
            var issue := IssueAnswer(e, files, root, t.namespace, cmd.rawLabel, cmd.draw);
            var issues := && |t.key| == 0 && name == t.namespace && issue.Ok? && cmd.fault != BeforeRename
                          && InitAnswer(w.files, root, t.namespace, cmd.env).Ok?;
            KeysIn(Do(e, root, w, cmd).files, root, name) ==
            KeysIn(w.files, root, name) + if issues then [issue.value.key] else []
  {
    var t := w.targets[cmd.target];
    var m := w.(files := InitLeaves(w.files, root, t.namespace, cmd.env));
    if Accepted(t.namespace) {
      InitKeeps(w.files, root, t.namespace, cmd.env, name);
    }
    assert KeysIn(w.files, root, name) + [] == KeysIn(w.files, root, name);
    if InitAnswer(w.files, root, t.namespace, cmd.env).Ok? && |t.key| == 0 {
      AddKeyChanges(e, root, m, cmd.target, cmd.rawLabel, cmd.draw, cmd.fault, cmd.saves, name);
    }
  }

  /** A command changes no target but its own, and of that one only the key: key add saves the token it was given
      unless it is told not to, and remote-init if there was none. Nothing is saved unless all went well. */
  lemma AddChangesTargets(e: Primitives, root: string, w: World, name: string, rawLabel: string, noSave: bool,
                          draw: Protocol.Draw, fault: Fault, saves: bool)
    requires root != ""
    ensures Do(e, root, w, KeyAdd(name, rawLabel, noSave, draw, fault, saves)).targets ==
            if && name in w.targets && |rawLabel| > 0 && !noSave && saves && fault == NoFault
               && IssueAnswer(e, w.files, root, w.targets[name].namespace, rawLabel, draw).Ok?
            then w.targets[name := w.targets[name].(key := Print(draw.id, draw.secret))] else w.targets
  {
  }

  lemma InitChangesTargets(e: Primitives, root: string, w: World, cmd: Command)
    requires root != "" && cmd.RemoteInit?
    ensures Do(e, root, w, cmd).targets ==
            if InitSucceeds(e, root, w, cmd) && |w.targets[cmd.target].key| == 0
            then w.targets[cmd.target := w.targets[cmd.target].(key := Print(cmd.draw.id, cmd.draw.secret))] else w.targets
  {
  }

  lemma KeysAfterRevoke(files: Files, root: string, name: string, id: string, other: string)
    requires CleanRoot(root) && Accepted(name) && Accepted(other)
    ensures KeysIn(WithoutKey(files, root, name, id), root, other) ==
            if other == name then Without(KeysIn(files, root, name), id) else KeysIn(files, root, other)
  {
    if other != name {
      OthersUntouched(files, root, name, Without(KeysIn(files, root, name), id), other);
    }
  }

  /** The keys of every namespace after key add and key revoke: one more key, or all but one ID, in the target's
      namespace and when the server gets that far; the same keys in every other case. */
  lemma KeysAfterCommand(e: Primitives, root: string, w: World, cmd: Command, name: string)
    requires CleanRoot(root) && !cmd.RemoteInit? && cmd.target in w.targets && Accepted(name)
    ensures var t, keys := w.targets[cmd.target], KeysIn(w.files, root, name);
            KeysIn(Do(e, root, w, cmd).files, root, name) ==
            match cmd
            case KeyAdd(_, rawLabel, _, draw, fault, _) =>
              var issue := IssueAnswer(e, w.files, root, t.namespace, rawLabel, draw);
              if name == t.namespace && |rawLabel| > 0 && issue.Ok? && fault != BeforeRename then keys + [issue.value.key] else keys
            case KeyRevoke(_, id, fault, _) =>
              if name == t.namespace && RevokeAnswer(w.files, root, name, id).Ok? && fault != BeforeRename
              then Without(keys, id) else keys
            case RemoteInit(_, _, _, _, _, _) => keys
  {
    var t := w.targets[cmd.target];
    match cmd
    case KeyAdd(target, rawLabel, noSave, draw, fault, saves) =>
      assert KeysIn(w.files, root, name) + [] == KeysIn(w.files, root, name);
      AddKeyChanges(e, root, w, target, rawLabel, draw, fault, saves && !noSave, name);
    case KeyRevoke(target, id, fault, saves) =>
      if RevokeAnswer(w.files, root, t.namespace, id).Ok? && fault != BeforeRename {
        RevokeIs(e, root, w, target, id, fault, saves);
        KeysAfterRevoke(w.files, root, t.namespace, id, name);
      }
    case RemoteInit(_, _, _, _, _, _) =>
  }

  // ---- When remote-init succeeds ----

  predicate InitSucceeds(e: Primitives, root: string, w: World, cmd: Command)
    requires root != "" && cmd.RemoteInit?
  {
    cmd.target in w.targets &&
    var t := w.targets[cmd.target];
    && InitAnswer(w.files, root, t.namespace, cmd.env).Ok?
    && (|t.key| == 0 ==>
          && cmd.saves && cmd.fault == NoFault
          && IssueAnswer(e, InitLeaves(w.files, root, t.namespace, cmd.env), root, t.namespace, cmd.rawLabel, cmd.draw).Ok?)
  }

  /** After a success the target has a key; if there was agreement before, the server accepts it exactly if its ID
      was not taken. */
  lemma SuccessMeans(e: Primitives, root: string, w: World, cmd: Command)
    requires CleanRoot(root) && cmd.RemoteInit? && Protocol.ValidDraw(cmd.draw)
    ensures InitSucceeds(e, root, w, cmd) ==>
              var w' := Do(e, root, w, cmd);
              && cmd.target in w'.targets && |w'.targets[cmd.target].key| > 0
              && var t := w'.targets[cmd.target];
                 Agree(e, root, w) ==>
                   (AuthAnswer(e, w'.files, root, t.namespace, t.key).Ok? <==> !Collides(e, root, w, cmd))
  {
    if InitSucceeds(e, root, w, cmd) {
      var t, files := w.targets[cmd.target], InitLeaves(w.files, root, w.targets[cmd.target].namespace, cmd.env);
      TakenAfterInit(e, root, w.files, t.namespace, cmd.env, cmd.draw);
      if |t.key| == 0 {
        IssueAccepts(e, files, root, t.namespace, cmd.rawLabel, cmd.draw);
        IssuedIsLive(e, root, files, t.namespace, cmd.rawLabel, cmd.draw);
      } else if Agree(e, root, w) {
        LiveAfterInit(e, root, w.files, t.namespace, cmd.env, t);
      }
    }
  }

  // ---- The commands as the controller carries them out ----

  class Admin {
    const store: Store
    var targets: map<string, Target>

    constructor (store: Store, targets: map<string, Target>)
      ensures this.store == store && this.targets == targets
    {
      this.store, this.targets := store, targets;
    }

    ghost predicate Agreed()
      reads this, store
      requires store.Valid()
    {
      Agree(store.e, store.root, World(targets, store.files))
    }

    /** The names that the server's temporary files get are not in use. */
    ghost predicate FreeName(tmp: string)
      reads store
      requires store.root != ""
    {
      tmp !in store.files &&
      forall name :: Accepted(name) ==> tmp != KeysPath(store.root, name) && tmp != NsPath(store.root, name)
    }

    /** remoteKeyAdd: every saved key that was accepted stays accepted, even when the call fails on either side of
        its change; and if it succeeds, the server accepts the token that it printed exactly if its ID was not taken. */
    method RemoteKeyAdd(namespace: string, rawLabel: string, draw: Protocol.Draw, fault: Fault, tmp: string)
      returns (r: Answer<Issued>)
      requires store.Valid() && FreeName(tmp) && Protocol.ValidDraw(draw)
      modifies store`files
      ensures forall t :: Live(store.e, store.root, old(store.files), t) ==> Live(store.e, store.root, store.files, t)
      ensures r.Ok? ==>
                (AuthAnswer(store.e, store.files, store.root, namespace, r.value.token).Ok? <==>
                 !Taken(store.e, store.root, old(store.files), namespace, draw))
      ensures match IssueAnswer(store.e, old(store.files), store.root, namespace, rawLabel, draw)
              case Refused(err) => r == Refused(err) && store.files == old(store.files)
              case Ok(issued) =>
                && r == (if fault == NoFault then Ok(issued) else Refused(Protocol.Io))
                && Accepted(namespace)
                && store.files == (if fault == BeforeRename then old(store.files)
                                   else WithKey(old(store.files), store.root, namespace, issued.key))
    {
      ghost var before := store.files;
      ghost var answer := IssueAnswer(store.e, before, store.root, namespace, rawLabel, draw);
      r := store.IssueKey(namespace, rawLabel, draw, tmp, fault);
      if answer.Ok? {
        IssueAccepts(store.e, before, store.root, namespace, rawLabel, draw);
        forall t | Live(store.e, store.root, before, t) ensures Live(store.e, store.root, store.files, t) {
          LiveAfterIssue(store.e, store.root, before, namespace, answer.value.key, t);
        }
        IssuedIsLive(store.e, store.root, before, namespace, rawLabel, draw);
      }
    }

    /** Whatever fails, agreement is kept exactly if no taken ID is saved; if the command succeeds and saves, the
        saved key is accepted exactly then. */
    method KeyAdd(name: string, rawLabel: string, noSave: bool, draw: Protocol.Draw, fault: Fault, saves: bool, tmp: string)
      returns (ok: bool)
      requires store.Valid() && FreeName(tmp) && Protocol.ValidDraw(draw)
      modifies store`files, this`targets
      ensures old(Agreed()) ==>
                (Agreed() <==> !Collides(store.e, store.root, old(World(targets, store.files)),
                                         Command.KeyAdd(name, rawLabel, noSave, draw, fault, saves)))
      ensures ok && !noSave ==>
                name in targets &&
                (AuthAnswer(store.e, store.files, store.root, targets[name].namespace, targets[name].key).Ok? <==>
                 !Taken(store.e, store.root, old(store.files), targets[name].namespace, draw))
      ensures World(targets, store.files) == Do(store.e, store.root, old(World(targets, store.files)),
                                                Command.KeyAdd(name, rawLabel, noSave, draw, fault, saves))
      ensures targets == if ok && !noSave
                         then old(targets)[name := old(targets)[name].(key := Print(draw.id, draw.secret))] else old(targets)
      ensures ok <==> && |rawLabel| > 0 && name in old(targets) && (noSave || saves) && fault == NoFault
                      && IssueAnswer(store.e, old(store.files), store.root, old(targets)[name].namespace, rawLabel, draw).Ok?
    {
      ghost var w := World(targets, store.files);
      DoAgreesIf(store.e, store.root, w, Command.KeyAdd(name, rawLabel, noSave, draw, fault, saves));
      AddChangesTargets(store.e, store.root, w, name, rawLabel, noSave, draw, fault, saves);
      if |rawLabel| == 0 || name !in targets {
        return false;
      }
      var resolved := targets[name];
      var issued := RemoteKeyAdd(resolved.namespace, rawLabel, draw, fault, tmp);
      if issued.Refused? {
        return false;
      }
      if !noSave {
        if !saves {
          return false;
        }
        targets := targets[name := resolved.(key := issued.value.token)];
      }
      return true;
    }

    /** Agreement is kept exactly if no target is left with the revoked key; after a success this one is not. */
    method KeyRevoke(name: string, id: string, fault: Fault, saves: bool, tmp: string) returns (ok: bool)
      requires store.Valid() && FreeName(tmp)
      modifies store`files, this`targets
      ensures old(Agreed()) ==>
                (Agreed() <==> !Orphans(store.root, old(World(targets, store.files)), Command.KeyRevoke(name, id, fault, saves)))
      ensures ok ==>
                && name in targets && Accepted(targets[name].namespace) && !SavesKey(targets[name], targets[name].namespace, id)
                && id !in KeyMap(store.files, store.root, targets[name].namespace)
      ensures World(targets, store.files) == Do(store.e, store.root, old(World(targets, store.files)),
                                                Command.KeyRevoke(name, id, fault, saves))
      ensures targets == if ok && ControllerKeyId(old(targets)[name].key) == id
                         then old(targets)[name := old(targets)[name].(key := "")] else old(targets)
      ensures ok <==> && name in old(targets) && fault == NoFault
                      && RevokeAnswer(old(store.files), store.root, old(targets)[name].namespace, id).Ok?
                      && (ControllerKeyId(old(targets)[name].key) == id ==> saves)
    {
      ghost var w := World(targets, store.files);
      DoAgreesIf(store.e, store.root, w, Command.KeyRevoke(name, id, fault, saves));
      if name !in targets {
        return false;
      }
      var resolved := targets[name];
      var revoked := store.RevokeKey(resolved.namespace, id, tmp, fault);
      if revoked.Refused? {
        return false;
      }
      ParsersAgree(resolved.key);
      NoKeyNoId();
      RevokeRemoves(w.files, store.root, resolved.namespace, id, resolved.namespace);
      if ControllerKeyId(resolved.key) == id {
        if !saves {
          return false;
        }
        targets := targets[name := resolved.(key := "")];
      }
      return true;
    }

    /** remote-init --apply once the bootstrap script has run. Whatever fails, agreement is kept exactly if no taken
        ID is saved; after a success the target has a key, and if there was agreement before, the server
        accepts it exactly then. */
    method RemoteInit(name: string, rawLabel: string, env: InitEnv, draw: Protocol.Draw, fault: Fault, saves: bool, tmp: string)
      returns (ok: bool)
      requires store.Valid() && FreeName(tmp) && Protocol.ValidDraw(draw)
      modifies store`files, store`dirs, this`targets
      ensures old(Agreed()) ==>
                (Agreed() <==> !Collides(store.e, store.root, old(World(targets, store.files)),
                                         Command.RemoteInit(name, rawLabel, env, draw, fault, saves)))
      ensures ok ==>
                name in targets && |targets[name].key| > 0 &&
                (old(Agreed()) ==>
                   (AuthAnswer(store.e, store.files, store.root, targets[name].namespace, targets[name].key).Ok? <==>
                    !Collides(store.e, store.root, old(World(targets, store.files)),
                              Command.RemoteInit(name, rawLabel, env, draw, fault, saves))))
      ensures World(targets, store.files) == Do(store.e, store.root, old(World(targets, store.files)),
                                                Command.RemoteInit(name, rawLabel, env, draw, fault, saves))
      ensures targets == if ok && |old(targets)[name].key| == 0
                         then old(targets)[name := old(targets)[name].(key := Print(draw.id, draw.secret))] else old(targets)
      ensures ok <==> InitSucceeds(store.e, store.root, old(World(targets, store.files)),
                                   Command.RemoteInit(name, rawLabel, env, draw, fault, saves))
    {
      ghost var w := World(targets, store.files);
      ghost var cmd := Command.RemoteInit(name, rawLabel, env, draw, fault, saves);
      DoAgreesIf(store.e, store.root, w, cmd);
      SuccessMeans(store.e, store.root, w, cmd);
      InitChangesTargets(store.e, store.root, w, cmd);
      if name !in targets {
        return false;
      }
      var resolved := targets[name];
      var initialised := store.Init(resolved.namespace, env, tmp);
      if initialised.Refused? {
        return false;
      }
      if |resolved.key| == 0 {
        InitAddsNames(w.files, store.root, resolved.namespace, env, tmp);
        var issued := RemoteKeyAdd(resolved.namespace, rawLabel, draw, fault, tmp);
        if issued.Refused? || !saves {
          return false;
        }
        targets := targets[name := resolved.(key := issued.value.token)];
      }
      return true;
    }
  }

  lemma InitAddsNames(files: Files, root: string, name: string, env: InitEnv, path: string)
    requires root != "" && path !in files
    requires Accepted(name) ==> path != KeysPath(root, name) && path != NsPath(root, name)
    ensures path !in InitLeaves(files, root, name, env)
  {
  }
}
