/** The inductive invariant of the store protocol, and its preservation by every step. */
module Invariant {
  import opened Text
  import opened Token
  import opened KeyList
  import opened History
  import opened Protocol

  // ---- The invariant ----

  predicate PublishedFile(d: Disk, ino: nat) {
    ino < |d.inodes| && d.inodes[ino].published && d.inodes[ino].synced
  }

  predicate NsFilesOk(name: string, d: Disk) {
    && |d.nsVers| <= 1 && d.nsDur <= |d.nsVers|
    && forall i :: 0 <= i < |d.nsVers| ==>
         PublishedFile(d, d.nsVers[i]) && ContentAt(d, d.nsVers[i]).Meta? && ContentAt(d, d.nsVers[i]).ns.name == name
  }

  predicate KeyFilesOk(d: Disk) {
    && d.keyDur <= |d.keyVers|
    && forall i :: 0 <= i < |d.keyVers| ==> PublishedFile(d, d.keyVers[i]) && ReadableKeys(ContentAt(d, d.keyVers[i]))
  }

  /** Only complete, synced files are ever named, the metadata file is written once, and the versions
      of the key file form a serial history. */
  ghost predicate DiskOk(e: Primitives, name: string, d: Disk) {
    NsFilesOk(name, d) && KeyFilesOk(d) && Serial(e, Hist(d)) && (d.dirDur ==> d.dir)
  }

  /** An outcome of a change is in the history as what it reports. */
  ghost predicate InHistory(e: Primitives, h: seq<seq<Key>>, out: Outcome) {
    match out
    case IssueOk(at, k, token) => IssuedAt(e, h, at, k) && Matches(e, k, token)
    case RevokeOk(at, id) => RevokedAt(h, at, id)
    case _ => false
  }

  predicate IsChange(out: Outcome) { out.IssueOk? || out.RevokeOk? }

  /** The key and its token were made from one draw of random bytes. */
  ghost predicate Drawn(e: Primitives, k: Key, token: string) {
    exists draw: Draw :: ValidDraw(draw) && k == Record(e, draw.id, draw.secret, k.keyLabel, draw.now) && token == Print(draw.id, draw.secret)
  }

  /** Calls that hold the key lock are the only ones that can have decided on a change, and what they
      decided on is still based on the current version. Init decides to write a file only while it
      does not exist. */
  ghost predicate Planned(e: Primitives, name: string, d: Disk, op: Op, w: Write) {
    match op
    case Init(_) =>
      w.res.InitOk? && w.res.ns.name == name && (
        match w.file
        case NsFile => d.nsVers == [] && w.doc == Meta(w.res.ns) && w.res.ns == Namespace(name, op.now)
        case KeysFile =>
          d.keyVers == [] && d.nsVers != [] && NsContent(d) == Meta(w.res.ns)
          && w.doc == Keys(KeyFile(KEY_FILE_VERSION, [])))
    case Issue(raw) =>
      w.file == KeysFile && d.keyVers != [] && w.res.IssueOk? && w.res.at == |d.keyVers|
      && w.doc == Keys(KeyFile(KEY_FILE_VERSION, Current(d) + [w.res.key]))
      && Appends(e, Current(d), Current(d) + [w.res.key], w.res.key)
      && w.res.key.keyLabel == TrimSpace(raw) && Matches(e, w.res.key, w.res.token) && Drawn(e, w.res.key, w.res.token)
    case Revoke(id) =>
      w.file == KeysFile && d.keyVers != [] && w.res == RevokeOk(|d.keyVers|, id)
      && HasId(Current(d), id)
      && w.doc == Keys(KeyFile(KEY_FILE_VERSION, Without(Current(d), id)))
    case Auth(_) => false
  }

  /** The outcome of a change that has been renamed into place but not yet reported. */
  ghost predicate Latest(e: Primitives, d: Disk, acks: seq<Outcome>, op: Op, out: Outcome) {
    && IsChange(out) && InHistory(e, Hist(d), out) && out.at == |d.keyVers| - 1
    && (forall a :: a in acks ==> IsChange(a) && a.at < out.at)
    && (op.Issue? ==> out.IssueOk? && out.key.keyLabel == TrimSpace(op.rawLabel))
    && (op.Revoke? ==> out.RevokeOk? && out.id == op.id)
  }

  ghost predicate InitDone(d: Disk, ns: Namespace) {
    d.nsVers != [] && NsContent(d) == Meta(ns)
  }

  ghost predicate Landed(e: Primitives, d: Disk, acks: seq<Outcome>, op: Op, w: Write) {
    match op
    case Init(_) => w.res.InitOk? && InitDone(d, w.res.ns) && (w.file == KeysFile ==> d.keyVers != [])
    case Auth(_) => false
    case _ => w.file == KeysFile && Latest(e, d, acks, op, w.res)
  }

  ghost predicate Finishing(e: Primitives, d: Disk, acks: seq<Outcome>, op: Op, out: Outcome) {
    match out
    case Err(err) =>
      && err != Corrupt && err != Mismatch && err != NamespaceMissing && err != InvalidLabel && err != InvalidKey
      && (op.Init? ==> err == Io)
    case InitOk(ns) => op.Init? && InitDone(d, ns) && d.keyVers != []
    case AuthDone(_, _) => false
    case _ => !op.Init? && Latest(e, d, acks, op, out) && out.at < d.keyDur && d.nsDur == 1
  }

  predicate Owned(d: Disk, pid: nat, ino: nat) {
    ino < |d.inodes| && d.inodes[ino].owner == pid && !d.inodes[ino].published
  }

  /** A reader has seen exactly one version, the one that was current when it opened the file. */
  ghost predicate Read(e: Primitives, d: Disk, op: Op, out: Outcome) {
    match out
    case AuthDone(at, verdict) =>
      op.Auth? && at < |d.keyVers| && StoreKeyId(op.token).Some?
      && verdict == Verdict(e, Hist(d)[at], StoreKeyId(op.token).value, op.token)
    case Err(err) => err != Corrupt && err != Mismatch
    case _ => true
  }

  ghost predicate PcOk(e: Primitives, name: string, d: Disk, acks: seq<Outcome>, pid: nat, op: Op, pc: Pc) {
    match pc
    case Start => true
    case Checked => (op.Issue? ==> ValidLabel(TrimSpace(op.rawLabel))) && (op.Auth? ==> StoreKeyId(op.token).Some?)
    case Locked => op.Issue? ==> ValidLabel(TrimSpace(op.rawLabel))
    case Settled(ns) => op.Init? && InitDone(d, ns) && ns.name == name
    case Decided(w) => Planned(e, name, d, op, w)
    case Created(w, ino) => Planned(e, name, d, op, w) && Owned(d, pid, ino)
    case Written(w, ino) => Planned(e, name, d, op, w) && Owned(d, pid, ino) && d.inodes[ino].content == w.doc
    case Synced(w, ino) =>
      Planned(e, name, d, op, w) && Owned(d, pid, ino) && d.inodes[ino].content == w.doc && d.inodes[ino].synced
    case Renamed(w) => Landed(e, d, acks, op, w) && (w.res.InitOk? ==> w.res.ns.name == name)
    case Unlocking(out) => Finishing(e, d, acks, op, out)
    case Opened(ino, at) => op.Auth? && StoreKeyId(op.token).Some? && at < |d.keyVers| && d.keyVers[at] == ino
    case Done(out) => Read(e, d, op, out)
  }

  ghost predicate ProcOk(e: Primitives, name: string, d: Disk, acks: seq<Outcome>, pid: nat, p: Proc) {
    && (Holds(p) ==> LockOf(d, p.op) == Some(pid) && !p.op.Auth?)
    && (!p.op.Init? && !p.pc.Start? && !p.pc.Done? ==> d.nsVers != [])
    && PcOk(e, name, d, acks, pid, p.op, p.pc)
  }

  ghost predicate ProcsOk(e: Primitives, s: State) {
    forall q :: q in s.procs ==> ProcOk(e, s.name, s.disk, s.acks, q, s.procs[q])
  }

  /** A lock is held by a live call of the right kind. */
  ghost predicate LocksOk(s: State) {
    && (s.disk.nsLock.Some? ==>
          var q := s.disk.nsLock.value; q in s.procs && Holds(s.procs[q]) && s.procs[q].op.Init?)
    && (s.disk.keyLock.Some? ==>
          var q := s.disk.keyLock.value; q in s.procs && Holds(s.procs[q]) && !s.procs[q].op.Init?)
  }

  /** Every reported change is durable, and the reports follow the order of the versions. */
  ghost predicate AcksOk(e: Primitives, d: Disk, acks: seq<Outcome>) {
    && (forall i :: 0 <= i < |acks| ==> IsChange(acks[i]) && InHistory(e, Hist(d), acks[i]) && acks[i].at < d.keyDur)
    && (forall i, j :: 0 <= i < j < |acks| ==> acks[i].at < acks[j].at)
    && (acks != [] ==> d.nsDur == 1)
  }

  /** Successful calls of Init in the same epoch reported the same namespace. */
  ghost predicate InitsOk(d: Disk, inits: seq<(Namespace, nat)>, epoch: nat) {
    && (forall i :: 0 <= i < |inits| ==> inits[i].1 <= epoch && (inits[i].1 == epoch ==> InitDone(d, inits[i].0)))
    && (forall i, j :: 0 <= i < j < |inits| && inits[i].1 == inits[j].1 ==> inits[i].0 == inits[j].0)
  }

  ghost predicate Inv(e: Primitives, s: State) {
    && DiskOk(e, s.name, s.disk)
    && ProcsOk(e, s)
    && LocksOk(s)
    && AcksOk(e, s.disk, s.acks)
    && InitsOk(s.disk, s.inits, s.epoch)
  }

  lemma FreshInv(e: Primitives, name: string)
    ensures Inv(e, Fresh(name))
  {
  }

  // ---- Changes of the directory that leave the named files alone ----

  /** d' names the same files as d with the same contents; only unpublished files of pid differ. */
  predicate SameFiles(d: Disk, d': Disk, pid: nat) {
    && d'.nsVers == d.nsVers && d'.keyVers == d.keyVers
    && |d.inodes| <= |d'.inodes|
    && (forall i :: 0 <= i < |d.inodes| && (d.inodes[i].published || d.inodes[i].owner != pid) ==> d'.inodes[i] == d.inodes[i])
    && d.nsDur <= d'.nsDur <= |d.nsVers| && d.keyDur <= d'.keyDur <= |d.keyVers|
    && (d.dir ==> d'.dir) && (d'.dirDur ==> d'.dir)
  }

  lemma SameFilesHist(d: Disk, d': Disk, pid: nat)
    requires KeyFilesOk(d) && SameFiles(d, d', pid)
    ensures Hist(d') == Hist(d) && Current(d') == Current(d) && KeyFilesOk(d')
  {
    forall i | 0 <= i < |d.keyVers|
      ensures ContentAt(d', d.keyVers[i]) == ContentAt(d, d.keyVers[i]) && PublishedFile(d', d.keyVers[i])
    {
      assert PublishedFile(d, d.keyVers[i]);
    }
  }

  lemma SameFilesNs(name: string, d: Disk, d': Disk, pid: nat)
    requires NsFilesOk(name, d) && SameFiles(d, d', pid)
    ensures NsFilesOk(name, d')
    ensures d.nsVers != [] ==> NsContent(d') == NsContent(d)
  {
    forall i | 0 <= i < |d.nsVers|
      ensures ContentAt(d', d.nsVers[i]) == ContentAt(d, d.nsVers[i]) && PublishedFile(d', d.nsVers[i])
    {
      assert PublishedFile(d, d.nsVers[i]);
    }
  }

  lemma SameFilesDisk(e: Primitives, name: string, d: Disk, d': Disk, pid: nat)
    requires DiskOk(e, name, d) && SameFiles(d, d', pid)
    ensures DiskOk(e, name, d')
  {
    SameFilesHist(d, d', pid);
    SameFilesNs(name, d, d', pid);
  }

  lemma SameFilesAcks(e: Primitives, name: string, d: Disk, d': Disk, pid: nat, acks: seq<Outcome>)
    requires DiskOk(e, name, d) && SameFiles(d, d', pid) && AcksOk(e, d, acks)
    ensures AcksOk(e, d', acks)
  {
    SameFilesHist(d, d', pid);
  }

  lemma SameFilesInits(e: Primitives, name: string, d: Disk, d': Disk, pid: nat, inits: seq<(Namespace, nat)>, epoch: nat)
    requires DiskOk(e, name, d) && SameFiles(d, d', pid) && InitsOk(d, inits, epoch)
    ensures InitsOk(d', inits, epoch)
  {
    SameFilesNs(name, d, d', pid);
  }

  lemma SameFilesPlanned(e: Primitives, name: string, d: Disk, d': Disk, pid: nat, op: Op, w: Write)
    requires DiskOk(e, name, d) && SameFiles(d, d', pid) && Planned(e, name, d, op, w)
    ensures Planned(e, name, d', op, w)
  {
    SameFilesHist(d, d', pid);
    SameFilesNs(name, d, d', pid);
  }

  lemma SameFilesPc(e: Primitives, name: string, d: Disk, d': Disk, acks: seq<Outcome>, pid: nat, q: nat, op: Op, pc: Pc)
    requires DiskOk(e, name, d) && SameFiles(d, d', pid) && q != pid && PcOk(e, name, d, acks, q, op, pc)
    ensures PcOk(e, name, d', acks, q, op, pc)
  {
    SameFilesHist(d, d', pid);
    SameFilesNs(name, d, d', pid);
    if pc.Decided? || pc.Created? || pc.Written? || pc.Synced? {
      SameFilesPlanned(e, name, d, d', pid, op, pc.w);
    }
  }
}
