/** The namespace store as one caller sees it: the files below the data root, and the calls that read
    and replace them. */
module Store {
  import opened Text
  import opened Token
  import opened KeyList
  import opened Paths
  import opened Protocol

  datatype Answer<+T> = Ok(value: T) | Refused(error: Error)

  datatype Issued = Issued(key: Key, token: string)

  /** Where an atomic write fails, if it does. */
  datatype Fault = NoFault | BeforeRename | AfterRename

  const NAMESPACE_FILE := "namespace.json"
  const KEYS_FILE := "keys.json"

  type Files = map<string, Content>

  function DirOf(root: string, name: string): string
    requires root != "" && Accepted(name)
  {
    NamespaceDir(root, name).value
  }

  function NsPath(root: string, name: string): string
    requires root != "" && Accepted(name)
  {
    JoinPath(DirOf(root, name), NAMESPACE_FILE)
  }

  function KeysPath(root: string, name: string): string
    requires root != "" && Accepted(name)
  {
    JoinPath(DirOf(root, name), KEYS_FILE)
  }

  /** existingDir */
  function Existing(files: Files, root: string, name: string): (r: Answer<string>)
    requires root != ""
    ensures r.Ok? ==> Accepted(name)
  {
    if !Accepted(name) then Refused(InvalidNamespace)
    else if NsPath(root, name) !in files then Refused(NamespaceMissing)
    else Ok(DirOf(root, name))
  }

  /** readKeyFile */
  function ReadKeys(files: Files, path: string): Answer<seq<Key>> {
    if path !in files then Refused(NotExist)
    else if !ReadableKeys(files[path]) then Refused(Corrupt)
    else Ok(files[path].file.keys)
  }

  /** The keys of a namespace as a map from IDs; empty when it has no readable key file. */
  function KeyMap(files: Files, root: string, name: string): map<string, Key>
    requires root != "" && Accepted(name)
  {
    match ReadKeys(files, KeysPath(root, name))
    case Ok(keys) => Bindings(keys)
    case Refused(_) => map[]
  }

  /** What a call of Init meets: whether its directories could be made and given their mode, the time, and
      where its two writes fail, if they do. */
  datatype InitEnv = InitEnv(made: bool, now: int, nsFault: Fault, keysFault: Fault)

  /** The metadata file, when there is one, belongs to the namespace. */
  predicate OwnMetadata(files: Files, root: string, name: string)
    requires root != "" && Accepted(name)
  {
    NsPath(root, name) in files ==> files[NsPath(root, name)].Meta? && files[NsPath(root, name)].ns.name == name
  }

  function InitAnswer(files: Files, root: string, name: string, env: InitEnv): Answer<Namespace>
    requires root != ""
  {
    if !Accepted(name) then Refused(InvalidNamespace)
    else
      var nsPath := NsPath(root, name);
      if !env.made then Refused(Io)
      else if nsPath in files && !files[nsPath].Meta? then Refused(Corrupt)
      else if !OwnMetadata(files, root, name) then Refused(Mismatch)
      else if nsPath !in files && env.nsFault != NoFault then Refused(Io)
      else if KeysPath(root, name) !in files && env.keysFault != NoFault then Refused(Io)
      else Ok(if nsPath in files then files[nsPath].ns else Namespace(name, env.now))
  }

  /** The files after a call of Init: it adds the metadata file and then an empty key file, as far as it gets. */
  function InitLeaves(files: Files, root: string, name: string, env: InitEnv): Files
    requires root != ""
  {
    if !Accepted(name) || !env.made || !OwnMetadata(files, root, name) then files
    else
      var nsPath, keysPath := NsPath(root, name), KeysPath(root, name);
      if nsPath !in files && env.nsFault == BeforeRename then files
      else
        var f1 := if nsPath in files then files else files[nsPath := Meta(Namespace(name, env.now))];
        if (nsPath !in files && env.nsFault == AfterRename) || keysPath in f1 || env.keysFault == BeforeRename then f1
        else f1[keysPath := Keys(KeyFile(KEY_FILE_VERSION, []))]
  }

  /** What IssueKey answers when no write fails. */
  function IssueAnswer(e: Primitives, files: Files, root: string, name: string, rawLabel: string, draw: Draw): Answer<Issued>
    requires root != ""
  {
    var keyLabel := TrimSpace(rawLabel);
    if !ValidLabel(keyLabel) then Refused(InvalidLabel) else
      match Existing(files, root, name)
      case Refused(err) => Refused(err)
      case Ok(_) =>
        match ReadKeys(files, KeysPath(root, name))
        case Refused(err) => Refused(err)
        case Ok(keys) =>
          if !LabelFree(e, keys, keyLabel) then Refused(DuplicateLabel)
          else Ok(Issued(Record(e, draw.id, draw.secret, keyLabel, draw.now), Print(draw.id, draw.secret)))
  }

  /** What Authenticate answers. */
  function AuthAnswer(e: Primitives, files: Files, root: string, name: string, token: string): Answer<Key>
    requires root != ""
  {
    if Existing(files, root, name).Refused? || StoreKeyId(token).None? then Refused(InvalidKey)
    else
      match ReadKeys(files, KeysPath(root, name))
      case Refused(err) => Refused(err)
      case Ok(keys) =>
        match Verdict(e, keys, StoreKeyId(token).value, token)
        case None => Refused(InvalidKey)
        case Some(k) => Ok(k)
  }

  /** What RevokeKey answers when no write fails. */
  function RevokeAnswer(files: Files, root: string, name: string, id: string): Answer<()>
    requires root != ""
  {
    match Existing(files, root, name)
    case Refused(err) => Refused(err)
    case Ok(_) =>
      match ReadKeys(files, KeysPath(root, name))
      case Refused(err) => Refused(err)
      case Ok(keys) => if HasId(keys, id) then Ok(()) else Refused(KeyMissing)
  }

  /** The records of a namespace; none when it has no readable key file. */
  function KeysIn(files: Files, root: string, name: string): seq<Key>
    requires root != "" && Accepted(name)
  {
    match ReadKeys(files, KeysPath(root, name))
    case Ok(keys) => keys
    case Refused(_) => []
  }

  function WithKeys(files: Files, root: string, name: string, keys: seq<Key>): Files
    requires root != "" && Accepted(name)
  {
    files[KeysPath(root, name) := Keys(KeyFile(KEY_FILE_VERSION, keys))]
  }

  function WithKey(files: Files, root: string, name: string, key: Key): Files
    requires root != "" && Accepted(name)
  {
    WithKeys(files, root, name, KeysIn(files, root, name) + [key])
  }

  function WithoutKey(files: Files, root: string, name: string, id: string): Files
    requires root != "" && Accepted(name)
  {
    WithKeys(files, root, name, Without(KeysIn(files, root, name), id))
  }

  /** Rewriting the key file of one namespace leaves the keys of every other one as they were. */
  lemma OthersUntouched(files: Files, root: string, name: string, keys: seq<Key>, other: string)
    requires Rooted(root) && Clean(root) == root && Accepted(name) && Accepted(other) && name != other
    ensures KeysIn(WithKeys(files, root, name, keys), root, other) == KeysIn(files, root, other)
    ensures KeyMap(WithKeys(files, root, name, keys), root, other) == KeyMap(files, root, other)
  {
    FilesDisjoint(root, name, other, KEYS_FILE, KEYS_FILE);
  }

  /** Issuing inserts one binding into the map of its namespace when the ID is fresh, and changes no
      binding otherwise; the maps of the other namespaces stay the same. */
  lemma IssueInserts(files: Files, root: string, name: string, key: Key, other: string)
    requires Rooted(root) && Clean(root) == root && Accepted(name) && Accepted(other)
    ensures var m := KeyMap(files, root, name);
            KeyMap(WithKey(files, root, name, key), root, other) ==
            if other != name then KeyMap(files, root, other)
            else if key.id in m then m else m[key.id := key]
  {
    var keys := KeysIn(files, root, name);
    if other != name {
      OthersUntouched(files, root, name, keys + [key], other);
    } else {
      AppendInserts(keys, key);
      BindingsLookup(keys, key.id);
    }
  }

  /** Revoking removes exactly one binding, in its own namespace. */
  lemma RevokeRemoves(files: Files, root: string, name: string, id: string, other: string)
    requires Rooted(root) && Clean(root) == root && Accepted(name) && Accepted(other)
    ensures KeyMap(WithoutKey(files, root, name, id), root, other) ==
            if other != name then KeyMap(files, root, other) else KeyMap(files, root, name) - {id}
  {
    var keys := KeysIn(files, root, name);
    if other != name {
      OthersUntouched(files, root, name, Without(keys, id), other);
    } else {
      FilterRemoves(keys, id);
    }
  }

  /** Init changes no file that is there, adds no file but its two, and no namespace's keys change; if it
      succeeds, both files are there and the metadata is what it reports. */
  lemma InitKeeps(files: Files, root: string, name: string, env: InitEnv, other: string)
    requires Rooted(root) && Clean(root) == root && Accepted(name) && Accepted(other)
    ensures var after := InitLeaves(files, root, name, env);
            && files.Keys <= after.Keys <= files.Keys + {NsPath(root, name), KeysPath(root, name)}
            && (forall p :: p in files ==> after[p] == files[p])
            && KeysIn(after, root, other) == KeysIn(files, root, other)
            && KeyMap(after, root, other) == KeyMap(files, root, other)
    ensures var r, after := InitAnswer(files, root, name, env), InitLeaves(files, root, name, env);
            r.Ok? ==> NsPath(root, name) in after && after[NsPath(root, name)] == Meta(r.value) && KeysPath(root, name) in after
  {
    InitKeyFile(files, root, name, env, other);
    PathsDiffer(root, name);
  }

  predicate SameKeyFile(files: Files, after: Files, path: string) {
    if path in files then path in after && after[path] == files[path]
    else path in after ==> after[path] == Keys(KeyFile(KEY_FILE_VERSION, []))
  }

  /** Every key file stays as it is; one that is added is empty. */
  lemma InitKeyFile(files: Files, root: string, name: string, env: InitEnv, other: string)
    requires Rooted(root) && Clean(root) == root && Accepted(name) && Accepted(other)
    ensures SameKeyFile(files, InitLeaves(files, root, name, env), KeysPath(root, other))
  {
    PathsDiffer(root, name);
    if other != name {
      FilesDisjoint(root, name, other, KEYS_FILE, KEYS_FILE);
      FilesDisjoint(root, name, other, NAMESPACE_FILE, KEYS_FILE);
    }
    InitAt(files, root, name, env, KeysPath(root, other));
  }

  lemma InitAt(files: Files, root: string, name: string, env: InitEnv, path: string)
    requires root != "" && Accepted(name) && path != NsPath(root, name)
    ensures SameKeyFile(files, InitLeaves(files, root, name, env), path)
  {
  }

  /** Authentication consults the map of its own namespace only. */
  lemma AuthenticateIsLookup(e: Primitives, files: Files, root: string, name: string, token: string, k: Key)
    requires root != ""
    ensures AuthAnswer(e, files, root, name, token) == Ok(k) <==>
            && Existing(files, root, name).Ok? && StoreKeyId(token).Some?
            && var m := KeyMap(files, root, name);
               var id := StoreKeyId(token).value;
               id in m && HexDecode(m[id].digest) == Some(e.sha256(token)) && k == m[id].(digest := "")
  {
    if Existing(files, root, name).Ok? && StoreKeyId(token).Some? {
      VerdictIsLookup(e, KeysIn(files, root, name), StoreKeyId(token).value, token);
    }
  }

  /** Where a namespace's metadata is. */
  lemma MetadataNamed(root: string, name: string)
    requires Rooted(root) && Clean(root) == root && Accepted(name)
    ensures NsPath(root, name) == DirOf(root, name) + "/" + "namespace.json"
  {
    ChildOfNamespace(root, name, NAMESPACE_FILE);
  }

  /** Where its keys are. */
  lemma KeysNamed(root: string, name: string)
    requires Rooted(root) && Clean(root) == root && Accepted(name)
    ensures KeysPath(root, name) == DirOf(root, name) + "/" + "keys.json"
  {
    ChildOfNamespace(root, name, KEYS_FILE);
  }

  lemma VersionsRead(files: Files, root: string, name: string, keys: seq<Key>, path: string)
    requires root != "" && Accepted(name)
    ensures WithKeys(files, root, name, keys)[KeysPath(root, name)] == Keys(KeyFile(1, keys))
    ensures ReadKeys(files, path).Ok? <==> path in files && files[path].Keys? && files[path].file.version == 1
    ensures path !in files ==> ReadKeys(files, path) == Refused(NotExist)
  {
  }

  lemma PathsDiffer(root: string, name: string)
    requires Rooted(root) && Clean(root) == root && Accepted(name)
    ensures NsPath(root, name) != KeysPath(root, name)
  {
    NamespaceIsChild(root, name);
    var dir := DirOf(root, name);
    JoinPlain(dir, NAMESPACE_FILE);
    JoinPlain(dir, KEYS_FILE);
    var n := |Elements(dir)|;
    assert Elements(NsPath(root, name))[n] == NAMESPACE_FILE && Elements(KeysPath(root, name))[n] == KEYS_FILE;
    assert |NAMESPACE_FILE| != |KEYS_FILE|;
  }

  class Store {
    const root: string
    const e: Primitives
    var files: Files
    var dirs: set<string>

    ghost predicate Valid() {
      Rooted(root) && Clean(root) == root
    }

    constructor (root: string, e: Primitives, files: Files, dirs: set<string>)
      requires Rooted(root) && Clean(root) == root
      ensures Valid() && this.root == root && this.e == e && this.files == files && this.dirs == dirs
    {
      this.root, this.e, this.files, this.dirs := root, e, files, dirs;
    }

    /** writeJSONAtomic: a reader finds the old file or the whole new one, and never the temporary name. */
    method WriteAtomic(path: string, doc: Content, tmp: string, fault: Fault) returns (ok: bool)
      requires tmp !in files && tmp != path
      modifies this`files
      ensures ok <==> fault == NoFault
      ensures files == if fault == BeforeRename then old(files) else old(files)[path := doc]
    {
      files := files[tmp := Torn];
      if fault == BeforeRename {
        files := files - {tmp};
        return false;
      }
      files := files[tmp := doc];
      files := files[path := files[tmp]] - {tmp};
      return fault == NoFault;
    }

    /** Init creates what is missing and keeps what is there. */
    method Init(name: string, env: InitEnv, tmp: string) returns (r: Answer<Namespace>)
      requires Valid() && tmp !in files
      requires Accepted(name) ==> tmp != NsPath(root, name) && tmp != KeysPath(root, name)
      modifies this`files, this`dirs
      ensures r == InitAnswer(old(files), root, name, env) && files == InitLeaves(old(files), root, name, env)
      ensures Accepted(name) && env.made ==>
                dirs == old(dirs) + {DirOf(root, name), JoinPath(DirOf(root, name), CONTEXTQ)}
      ensures forall p :: p in old(files) ==> p in files && files[p] == old(files)[p]
      ensures r.Ok? ==> {NsPath(root, name), KeysPath(root, name)} <= files.Keys && files[NsPath(root, name)] == Meta(r.value)
    {
      if !Accepted(name) {
        return Refused(InvalidNamespace);
      }
      if !env.made {
        return Refused(Io);
      }
      var dir := DirOf(root, name);
      dirs := dirs + {dir, JoinPath(dir, CONTEXTQ)};
      PathsDiffer(root, name);
      var nsPath, keysPath := NsPath(root, name), KeysPath(root, name);
      var ns := Namespace(name, env.now);
      if nsPath in files {
        if !files[nsPath].Meta? {
          return Refused(Corrupt);
        }
        if files[nsPath].ns.name != name {
          return Refused(Mismatch);
        }
        ns := files[nsPath].ns;
      } else {
        var ok := WriteAtomic(nsPath, Meta(ns), tmp, env.nsFault);
        if !ok {
          return Refused(Io);
        }
      }
      if keysPath !in files {
        var ok := WriteAtomic(keysPath, Keys(KeyFile(KEY_FILE_VERSION, [])), tmp, env.keysFault);
        if !ok {
          return Refused(Io);
        }
      }
      return Ok(ns);
    }

    method IssueKey(name: string, rawLabel: string, draw: Draw, tmp: string, fault: Fault) returns (r: Answer<Issued>)
      requires Valid() && tmp !in files && (Accepted(name) ==> tmp != KeysPath(root, name))
      modifies this`files
      ensures match IssueAnswer(e, old(files), root, name, rawLabel, draw)
              case Refused(err) => r == Refused(err) && files == old(files)
              case Ok(issued) =>
                && r == (if fault == NoFault then Ok(issued) else Refused(Io))
                && files == (if fault == BeforeRename then old(files) else WithKey(old(files), root, name, issued.key))
      ensures r.Ok? && draw.id != [] && draw.secret != [] ==>
                && Accepted(name) && KeysIn(files, root, name) == KeysIn(old(files), root, name) + [r.value.key]
                && r.value.key.createdAt == draw.now && r.value.key.keyLabel == TrimSpace(rawLabel)
                && r.value.key.id == "k_" + HexEncode(draw.id)
                && r.value.token == "cqk_k_" + HexEncode(draw.id) + "_" + B64Encode(draw.secret)
                && r.value.key.digest == HexEncode(e.sha256(r.value.token))
    {
      if draw.id != [] && draw.secret != [] {
        RecordMatches(e, draw.id, draw.secret, TrimSpace(rawLabel), draw.now);
        PrintedKeyId(draw.id, draw.secret);
      }
      var keyLabel := TrimSpace(rawLabel);
      if !ValidLabel(keyLabel) {
        return Refused(InvalidLabel);
      }
      var dir := Existing(files, root, name);
      if dir.Refused? {
        return Refused(dir.error);
      }
      var read := ReadKeys(files, KeysPath(root, name));
      if read.Refused? {
        return Refused(read.error);
      }
      var keys := read.value;
      var duplicate := HasLabel(e, keys, keyLabel);
      if duplicate {
        return Refused(DuplicateLabel);
      }
      var key := Record(e, draw.id, draw.secret, keyLabel, draw.now);
      keys := keys + [key];
      var ok := WriteAtomic(KeysPath(root, name), Keys(KeyFile(KEY_FILE_VERSION, keys)), tmp, fault);
      return if ok then Ok(Issued(key, Print(draw.id, draw.secret))) else Refused(Io);
    }

    method RevokeKey(name: string, id: string, tmp: string, fault: Fault) returns (r: Answer<()>)
      requires Valid() && tmp !in files && (Accepted(name) ==> tmp != KeysPath(root, name))
      modifies this`files
      ensures match RevokeAnswer(old(files), root, name, id)
              case Refused(err) => r == Refused(err) && files == old(files)
              case Ok(_) =>
                && r == (if fault == NoFault then Ok(()) else Refused(Io))
                && files == (if fault == BeforeRename then old(files) else WithoutKey(old(files), root, name, id))
    {
      var dir := Existing(files, root, name);
      if dir.Refused? {
        return Refused(dir.error);
      }
      var read := ReadKeys(files, KeysPath(root, name));
      if read.Refused? {
        return Refused(read.error);
      }
      var filtered, found := Filter(read.value, id);
      if !found {
        return Refused(KeyMissing);
      }
      var ok := WriteAtomic(KeysPath(root, name), Keys(KeyFile(KEY_FILE_VERSION, filtered)), tmp, fault);
      return if ok then Ok(()) else Refused(Io);
    }

    method Authenticate(name: string, token: string) returns (r: Answer<Key>)
      requires Valid()
      ensures r == AuthAnswer(e, files, root, name, token)
    {
      var dir := Existing(files, root, name);
      var id := StoreKeyId(token);
      if dir.Refused? || id.None? {
        return Refused(InvalidKey);
      }
      var read := ReadKeys(files, KeysPath(root, name));
      if read.Refused? {
        return Refused(read.error);
      }
      var key := FindKey(e, read.value, id.value, token);
      return if key.Some? then Ok(key.value) else Refused(InvalidKey);
    }

    /** The records of the namespace with their digests blanked, oldest first. */
    method ListKeys(name: string) returns (r: Answer<seq<Key>>)
      requires Valid()
      ensures Existing(files, root, name).Refused? ==> r == Refused(Existing(files, root, name).error)
      ensures Existing(files, root, name).Ok? ==>
                match ReadKeys(files, KeysPath(root, name))
                case Refused(err) => r == Refused(err)
                case Ok(keys) => r.Ok? && Oldest(r.value) && multiset(r.value) == multiset(Blanked(keys))
    {
      var dir := Existing(files, root, name);
      if dir.Refused? {
        return Refused(dir.error);
      }
      var read := ReadKeys(files, KeysPath(root, name));
      if read.Refused? {
        return Refused(read.error);
      }
      var keys := read.value;
      var out := new Key[|keys|](i requires 0 <= i < |keys| => keys[i]);
      for i := 0 to out.Length
        invariant forall j :: 0 <= j < i ==> out[j] == keys[j].(digest := "")
        invariant forall j :: i <= j < out.Length ==> out[j] == keys[j]
      {
        out[i] := out[i].(digest := "");
      }
      assert out[..] == Blanked(keys);
      SortSorts(out[..]);
      return Ok(SortByAge(out[..]));
    }
  }

  // ---- The order of a listing ----

  function Blanked(keys: seq<Key>): seq<Key> {
    seq(|keys|, i requires 0 <= i < |keys| => keys[i].(digest := ""))
  }

  predicate Oldest(keys: seq<Key>) {
    forall i, j :: 0 <= i < j < |keys| ==> keys[i].createdAt <= keys[j].createdAt
  }

  /** Any sort will do; the library's promises no order of keys of one age. */
  function SortByAge(keys: seq<Key>): seq<Key> {
    if keys == [] then [] else InsertByAge(SortByAge(keys[..|keys| - 1]), keys[|keys| - 1])
  }

  function InsertByAge(keys: seq<Key>, k: Key): seq<Key> {
    if keys == [] || keys[|keys| - 1].createdAt <= k.createdAt then keys + [k]
    else InsertByAge(keys[..|keys| - 1], k) + [keys[|keys| - 1]]
  }

  lemma {:induction false} InsertKeepsAll(keys: seq<Key>, k: Key)
    ensures multiset(InsertByAge(keys, k)) == multiset(keys) + multiset{k}
    decreases keys
  {
    if !(keys == [] || keys[|keys| - 1].createdAt <= k.createdAt) {
      var n := |keys| - 1;
      InsertKeepsAll(keys[..n], k);
      assert keys == keys[..n] + [keys[n]];
    }
  }

  lemma {:induction false} InsertBound(keys: seq<Key>, k: Key, t: int)
    requires k.createdAt <= t && forall i :: 0 <= i < |keys| ==> keys[i].createdAt <= t
    ensures forall i :: 0 <= i < |InsertByAge(keys, k)| ==> InsertByAge(keys, k)[i].createdAt <= t
    decreases keys
  {
    if !(keys == [] || keys[|keys| - 1].createdAt <= k.createdAt) {
      InsertBound(keys[..|keys| - 1], k, t);
    }
  }

  lemma {:induction false} InsertSorts(keys: seq<Key>, k: Key)
    requires Oldest(keys)
    ensures Oldest(InsertByAge(keys, k))
    decreases keys
  {
    if !(keys == [] || keys[|keys| - 1].createdAt <= k.createdAt) {
      var n := |keys| - 1;
      InsertSorts(keys[..n], k);
      InsertBound(keys[..n], k, keys[n].createdAt);
    }
  }

  lemma {:induction false} SortSorts(keys: seq<Key>)
    ensures Oldest(SortByAge(keys)) && multiset(SortByAge(keys)) == multiset(keys)
    decreases keys
  {
    if keys != [] {
      var n := |keys| - 1;
      SortSorts(keys[..n]);
      InsertSorts(SortByAge(keys[..n]), keys[n]);
      InsertKeepsAll(SortByAge(keys[..n]), keys[n]);
      assert keys == keys[..n] + [keys[n]];
    }
  }

  // ---- Opening a store ----

  lemma NothingIsBlank()
    ensures TrimSpace("") == ""
  {
  }

  /** What opening a store comes to. A blank root is refused, and so is a relative one when the working directory
      is not known. */
  datatype OpenResult = Open(store: Store) | BlankRoot | NoWorkingDirectory

  /** NewStore, over what is found on disk; a relative root is taken from the working directory. */
  method NewStore(path: string, cwd: Option<string>, e: Primitives, files: Files, dirs: set<string>) returns (r: OpenResult)
    requires cwd.Some? ==> Rooted(cwd.value)
    ensures r.BlankRoot? <==> TrimSpace(path) == ""
    ensures r.NoWorkingDirectory? <==> TrimSpace(path) != "" && !Rooted(path) && cwd.None?
    ensures r.Open? ==>
              && fresh(r.store) && r.store.Valid() && path != ""
              && r.store.root == (if Rooted(path) then Clean(path) else JoinPath(cwd.value, path))
              && r.store.e == e && r.store.files == files && r.store.dirs == dirs
  {
    NothingIsBlank();
    if TrimSpace(path) == "" {
      return BlankRoot;
    }
    if !Rooted(path) && cwd.None? {
      return NoWorkingDirectory;
    }
    var abs := if Rooted(path) then Clean(path) else JoinPath(cwd.value, path);
    CleanIdempotent(if Rooted(path) then path else cwd.value + "/" + path);
    var store := new Store(abs, e, files, dirs);
    return Open(store);
  }
}
