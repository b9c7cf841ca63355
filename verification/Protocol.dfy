/** The namespace store as a protocol: any number of concurrent Init, IssueKey, RevokeKey and
    Authenticate calls, in any number of processes, on the files of one namespace directory.

    Every system call is a step of its own. A call can fail at any step, the process running it can
    die at any step, and the machine can lose power at any step. File data survives a power loss only
    if it was synced, and a rename only if the directory was synced after it. */
module Protocol {
  import opened Text
  import opened Token
  import opened KeyList

  datatype Namespace = Namespace(name: string, createdAt: int)

  datatype KeyFile = KeyFile(version: int, keys: seq<Key>)

  const KEY_FILE_VERSION := 1

  // ---- The directory ----

  /** What reading a file finds: a complete JSON document, or something that does not parse. */
  datatype Content = Torn | Meta(ns: Namespace) | Keys(file: KeyFile)

  /** owner is the call that created the file; published tells whether it was ever renamed into place. */
  datatype Inode = Inode(content: Content, synced: bool, owner: nat, published: bool)

  datatype File = NsFile | KeysFile

  /** nsVers and keyVers are the files that namespace.json and keys.json have named, oldest first; the
      last one is what the name refers to now, and none means that the name does not exist. The
      first nsDur and keyDur of them were covered by a directory sync. dir is the contextq directory. */
  datatype Disk = Disk(
    inodes: seq<Inode>,
    nsVers: seq<nat>, nsDur: nat,
    keyVers: seq<nat>, keyDur: nat,
    dir: bool, dirDur: bool,
    nsLock: Option<nat>, keyLock: Option<nat>)

  function ContentAt(d: Disk, ino: nat): Content {
    if ino < |d.inodes| then d.inodes[ino].content else Torn
  }

  function KeysOf(c: Content): seq<Key> {
    if c.Keys? then c.file.keys else []
  }

  /** What the metadata file holds now. */
  function NsContent(d: Disk): Content
    requires d.nsVers != []
  {
    ContentAt(d, d.nsVers[|d.nsVers| - 1])
  }

  function KeysContent(d: Disk): Content
    requires d.keyVers != []
  {
    ContentAt(d, d.keyVers[|d.keyVers| - 1])
  }

  function Current(d: Disk): seq<Key> {
    if d.keyVers == [] then [] else KeysOf(KeysContent(d))
  }

  /** The successive contents of the key file. */
  function Hist(d: Disk): (h: seq<seq<Key>>)
    ensures |h| == |d.keyVers|
  {
    seq(|d.keyVers|, i requires 0 <= i < |d.keyVers| => KeysOf(ContentAt(d, d.keyVers[i])))
  }

  // ---- Calls ----

  datatype Op =
    | Init(now: int)
    | Issue(rawLabel: string)
    | Revoke(id: string)
    | Auth(token: string)

  datatype Error =
    | Io | NotExist | Corrupt | Mismatch | NamespaceMissing
    | InvalidNamespace | InvalidLabel | DuplicateLabel | KeyMissing | InvalidKey

  /** at is the version of the key file a change produced, or that a reader opened. */
  datatype Outcome =
    | InitOk(ns: Namespace)
    | IssueOk(at: nat, key: Key, token: string)
    | RevokeOk(at: nat, id: string)
    | AuthDone(at: nat, verdict: Option<Key>)
    | Err(error: Error)

  /** A pending atomic write, and what the call returns when it succeeds. */
  datatype Write = Write(file: File, doc: Content, res: Outcome)

  datatype Pc =
    | Start
    | Checked                           // directory found; next: take the lock, or open the key file
    | Locked
    | Settled(ns: Namespace)            // Init knows the metadata; next: stat keys.json
    | Decided(w: Write)                 // next: create a temporary file
    | Created(w: Write, ino: nat)       // next: write it
    | Written(w: Write, ino: nat)       // next: sync it
    | Synced(w: Write, ino: nat)        // next: rename it into place
    | Renamed(w: Write)                 // next: sync the directory
    | Unlocking(out: Outcome)
    | Opened(ino: nat, at: nat)         // a reader holds the key file open
    | Done(out: Outcome)

  datatype Proc = Proc(op: Op, pc: Pc)

  /** The bytes and the time a call gets from its environment. */
  datatype Draw = Draw(id: seq<byte>, secret: seq<byte>, now: int)

  predicate Holds(p: Proc) {
    !(p.pc.Start? || p.pc.Checked? || p.pc.Opened? || p.pc.Done?)
  }

  function LockOf(d: Disk, op: Op): Option<nat> {
    if op.Init? then d.nsLock else d.keyLock
  }

  function SetLock(d: Disk, op: Op, holder: Option<nat>): Disk {
    if op.Init? then d.(nsLock := holder) else d.(keyLock := holder)
  }

  // ---- The steps of one call ----

  function ActStart(d: Disk, op: Op): (Disk, Pc) {
    match op
    case Init(_) => (d.(dir := true), Checked)
    case Issue(raw) =>
      if !ValidLabel(TrimSpace(raw)) then (d, Done(Err(InvalidLabel)))
      else if d.nsVers == [] then (d, Done(Err(NamespaceMissing)))
      else (d, Checked)
    case Revoke(_) => if d.nsVers == [] then (d, Done(Err(NamespaceMissing))) else (d, Checked)
    case Auth(token) =>
      if d.nsVers == [] || StoreKeyId(token).None? then (d, Done(Err(InvalidKey))) else (d, Checked)
  }

  /** A writer waits for its lock; a reader opens the key file without one. */
  function ActChecked(d: Disk, pid: nat, op: Op): Option<(Disk, Pc)> {
    if op.Auth? then
      if d.keyVers == [] then Some((d, Done(Err(NotExist))))
      else Some((d, Opened(d.keyVers[|d.keyVers| - 1], |d.keyVers| - 1)))
    else if LockOf(d, op) == None then Some((SetLock(d, op, Some(pid)), Locked))
    else None
  }

  predicate ReadableKeys(c: Content) {
    c.Keys? && c.file.version == KEY_FILE_VERSION
  }

  function KeyWrite(keys: seq<Key>, res: Outcome): Pc {
    Decided(Write(KeysFile, Keys(KeyFile(KEY_FILE_VERSION, keys)), res))
  }

  /** What a call does with what it reads first under its lock. */
  function ActLocked(e: Primitives, name: string, d: Disk, op: Op, draw: Draw): Pc {
    match op
    case Init(now) =>
      if d.nsVers == [] then Decided(Write(NsFile, Meta(Namespace(name, now)), InitOk(Namespace(name, now))))
      else if !NsContent(d).Meta? then Unlocking(Err(Corrupt))
      else if NsContent(d).ns.name != name then Unlocking(Err(Mismatch))
      else Settled(NsContent(d).ns)
    case Issue(raw) =>
      if d.keyVers == [] then Unlocking(Err(NotExist))
      else if !ReadableKeys(KeysContent(d)) then Unlocking(Err(Corrupt))
      else if !LabelFree(e, Current(d), TrimSpace(raw)) then Unlocking(Err(DuplicateLabel))
      else
        var k := Record(e, draw.id, draw.secret, TrimSpace(raw), draw.now);
        KeyWrite(Current(d) + [k], IssueOk(|d.keyVers|, k, Print(draw.id, draw.secret)))
    case Revoke(id) =>
      if d.keyVers == [] then Unlocking(Err(NotExist))
      else if !ReadableKeys(KeysContent(d)) then Unlocking(Err(Corrupt))
      else if !HasId(Current(d), id) then Unlocking(Err(KeyMissing))
      else KeyWrite(Without(Current(d), id), RevokeOk(|d.keyVers|, id))
    case Auth(_) => Locked
  }

  function ActSettled(d: Disk, ns: Namespace): Pc {
    if d.keyVers == [] then KeyWrite([], InitOk(ns)) else Unlocking(InitOk(ns))
  }

  function AddInode(d: Disk, pid: nat): Disk {
    d.(inodes := d.inodes + [Inode(Torn, false, pid, false)])
  }

  function SetInode(d: Disk, ino: nat, inode: Inode): Disk
    requires ino < |d.inodes|
  {
    d.(inodes := d.inodes[ino := inode])
  }

  function Publish(d: Disk, file: File, ino: nat): Disk
    requires ino < |d.inodes|
  {
    var d' := SetInode(d, ino, d.inodes[ino].(published := true));
    match file
    case NsFile => d'.(nsVers := d.nsVers + [ino])
    case KeysFile => d'.(keyVers := d.keyVers + [ino])
  }

  function SyncDir(d: Disk): Disk {
    d.(nsDur := |d.nsVers|, keyDur := |d.keyVers|, dirDur := d.dir)
  }

  function AfterWrite(w: Write): Pc {
    if w.file == NsFile && w.res.InitOk? then Settled(w.res.ns) else Unlocking(w.res)
  }

  function ActOpened(e: Primitives, d: Disk, op: Op, ino: nat, at: nat): Pc {
    var c := ContentAt(d, ino);
    if !op.Auth? || StoreKeyId(op.token).None? then Done(Err(InvalidKey))
    else if !ReadableKeys(c) then Done(Err(Corrupt))
    else Done(AuthDone(at, Verdict(e, c.file.keys, StoreKeyId(op.token).value, op.token)))
  }

  /** The next step of a call when nothing goes wrong; None while it has to wait and after it returned. */
  function Act(e: Primitives, name: string, d: Disk, pid: nat, p: Proc, draw: Draw): Option<(Disk, Pc)> {
    match p.pc
    case Start => Some(ActStart(d, p.op))
    case Checked => ActChecked(d, pid, p.op)
    case Locked => Some((d, ActLocked(e, name, d, p.op, draw)))
    case Settled(ns) => Some((d, ActSettled(d, ns)))
    case Decided(w) => Some((AddInode(d, pid), Created(w, |d.inodes|)))
    case Created(w, ino) =>
      if ino < |d.inodes| then Some((SetInode(d, ino, d.inodes[ino].(content := w.doc, synced := false)), Written(w, ino)))
      else None
    case Written(w, ino) =>
      if ino < |d.inodes| then Some((SetInode(d, ino, d.inodes[ino].(synced := true)), Synced(w, ino))) else None
    case Synced(w, ino) => if ino < |d.inodes| then Some((Publish(d, w.file, ino), Renamed(w))) else None
    case Renamed(w) => Some((SyncDir(d), AfterWrite(w)))
    case Unlocking(out) => Some((SetLock(d, p.op, None), Done(out)))
    case Opened(ino, at) => Some((d, ActOpened(e, d, p.op, ino, at)))
    case Done(_) => None
  }

  /** Where a call goes when its next system call or its random source fails. Authenticate reports a
      failed directory check as an invalid key. */
  function Failed(p: Proc): Option<Pc> {
    if p.pc.Done? || p.pc.Unlocking? then None
    else if Holds(p) then Some(Unlocking(Err(Io)))
    else Some(Done(Err(if p.op.Auth? && p.pc.Start? then InvalidKey else Io)))
  }

  // ---- Runs ----

  /** inits records the successful returns of Init with the epoch they were made in; a new epoch starts
      when a power loss takes the metadata file away. acks records the other successful returns. */
  datatype State = State(
    name: string, disk: Disk, procs: map<nat, Proc>,
    acks: seq<Outcome>, inits: seq<(Namespace, nat)>, epoch: nat)

  datatype Step =
    | Spawn(pid: nat, op: Op)
    | Advance(pid: nat, draw: Draw)
    | Fail(pid: nat)
    | Crash(pid: nat)
    | PowerLoss(nsKeep: nat, keyKeep: nat, dirKeep: bool, lost: set<nat>)

  function Fresh(name: string): State {
    State(name, Disk([], [], 0, [], 0, false, false, None, None), map[], [], [], 0)
  }

  /** The successful return of a call is recorded when the call releases its lock. */
  function Acknowledge(s: State, p: Proc): State {
    if !p.pc.Unlocking? then s
    else
      match p.pc.out
      case InitOk(ns) => s.(inits := s.inits + [(ns, s.epoch)])
      case IssueOk(_, _, _) => s.(acks := s.acks + [p.pc.out])
      case RevokeOk(_, _) => s.(acks := s.acks + [p.pc.out])
      case AuthDone(_, _) => s
      case Err(_) => s
  }

  /** Unsynced data is lost or not, as the environment chooses; what is found afterwards is durable. */
  function AfterCut(inodes: seq<Inode>, lost: set<nat>): (r: seq<Inode>)
    ensures |r| == |inodes|
  {
    seq(|inodes|, i requires 0 <= i < |inodes| =>
      if inodes[i].synced then inodes[i]
      else inodes[i].(synced := true, content := if i in lost then Torn else inodes[i].content))
  }

  function Cut(d: Disk, nsKeep: nat, keyKeep: nat, dirKeep: bool, lost: set<nat>): Disk
    requires nsKeep <= |d.nsVers| && keyKeep <= |d.keyVers|
  {
    Disk(AfterCut(d.inodes, lost), d.nsVers[..nsKeep], nsKeep, d.keyVers[..keyKeep], keyKeep, dirKeep, dirKeep, None, None)
  }

  predicate ValidDraw(draw: Draw) {
    |draw.id| == 6 && |draw.secret| == 32
  }

  function Next(e: Primitives, s: State, step: Step): Option<State> {
    match step
    case Spawn(pid, op) => if pid in s.procs then None else Some(s.(procs := s.procs[pid := Proc(op, Start)]))
    case Advance(pid, draw) =>
      if pid !in s.procs || !ValidDraw(draw) then None else (
        match Act(e, s.name, s.disk, pid, s.procs[pid], draw)
        case None => None
        case Some(r) =>
          Some(Acknowledge(s, s.procs[pid]).(disk := r.0, procs := s.procs[pid := s.procs[pid].(pc := r.1)])))
    case Fail(pid) =>
      if pid !in s.procs then None else (
        match Failed(s.procs[pid])
        case None => None
        case Some(pc) => Some(s.(procs := s.procs[pid := s.procs[pid].(pc := pc)])))
    case Crash(pid) =>
      if pid !in s.procs then None
      else
        var p := s.procs[pid];
        Some(s.(procs := s.procs - {pid}, disk := if Holds(p) then SetLock(s.disk, p.op, None) else s.disk))
    case PowerLoss(nsKeep, keyKeep, dirKeep, lost) =>
      var d := s.disk;
      if !(d.nsDur <= nsKeep <= |d.nsVers| && d.keyDur <= keyKeep <= |d.keyVers|) then None
      else if (d.dirDur && !dirKeep) || (dirKeep && !d.dir) then None
      else Some(s.(disk := Cut(d, nsKeep, keyKeep, dirKeep, lost), procs := map[],
                   epoch := if nsKeep < |d.nsVers| then s.epoch + 1 else s.epoch))
  }

  function Run(e: Primitives, s: State, steps: seq<Step>): Option<State> {
    if steps == [] then Some(s)
    else
      match Run(e, s, steps[..|steps| - 1])
      case None => None
      case Some(m) => Next(e, m, steps[|steps| - 1])
  }

  ghost predicate Reachable(e: Primitives, s: State) {
    exists steps :: Run(e, Fresh(s.name), steps) == Some(s)
  }
}
