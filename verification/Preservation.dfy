/** Every step of the store protocol keeps the invariant. */
module Preservation {
  import opened Text
  import opened Token
  import opened KeyList
  import opened History
  import opened Protocol
  import opened Invariant

  // ---- Renaming a file into place ----

  lemma PublishContents(d: Disk, file: File, ino: nat)
    requires ino < |d.inodes|
    ensures forall i :: ContentAt(Publish(d, file, ino), i) == ContentAt(d, i)
    ensures forall i :: PublishedFile(d, i) ==> PublishedFile(Publish(d, file, ino), i)
    ensures file == NsFile ==> Hist(Publish(d, file, ino)) == Hist(d)
    ensures file == KeysFile ==> Hist(Publish(d, file, ino)) == Hist(d) + [KeysOf(ContentAt(d, ino))]
  {
    var d' := Publish(d, file, ino);
    assert forall i :: 0 <= i < |d.keyVers| ==> d'.keyVers[i] == d.keyVers[i];
  }

  lemma SerialSnoc(e: Primitives, h: seq<seq<Key>>, v: seq<Key>)
    requires Serial(e, h)
    requires if h == [] then v == [] else SerialStep(e, h[|h| - 1], v)
    ensures Serial(e, h + [v])
  {
    var h' := h + [v];
    forall i | 0 < i < |h'| ensures SerialStep(e, h'[i - 1], h'[i]) {
      if i < |h| {
        assert SerialStep(e, h[i - 1], h[i]);
      }
    }
  }

  lemma InHistorySnoc(e: Primitives, h: seq<seq<Key>>, v: seq<Key>, out: Outcome)
    requires InHistory(e, h, out)
    ensures InHistory(e, h + [v], out)
  {
    assert (h + [v])[out.at] == h[out.at] && (h + [v])[out.at - 1] == h[out.at - 1];
  }

  /** What a call wrote is the next version of the history it read. */
  lemma PlannedIsSerial(e: Primitives, name: string, d: Disk, op: Op, w: Write)
    requires DiskOk(e, name, d) && Planned(e, name, d, op, w) && w.file == KeysFile
    ensures ReadableKeys(w.doc) && Serial(e, Hist(d) + [KeysOf(w.doc)])
  {
    var h := Hist(d);
    if h != [] {
      assert h[|h| - 1] == Current(d);
      PlannedIsStep(e, name, d, op, w);
    }
    SerialSnoc(e, h, KeysOf(w.doc));
  }

  lemma PlannedIsStep(e: Primitives, name: string, d: Disk, op: Op, w: Write)
    requires Planned(e, name, d, op, w) && w.file == KeysFile && d.keyVers != []
    ensures SerialStep(e, Current(d), KeysOf(w.doc))
  {
    if op.Issue? {
      assert Appends(e, Current(d), KeysOf(w.doc), w.res.key);
    } else {
      assert Removes(Current(d), KeysOf(w.doc), op.id);
    }
  }

  predicate ReadyToPublish(d: Disk, pid: nat, w: Write, ino: nat) {
    Owned(d, pid, ino) && d.inodes[ino].content == w.doc && d.inodes[ino].synced
  }

  lemma PublishDisk(e: Primitives, name: string, d: Disk, pid: nat, op: Op, w: Write, ino: nat)
    requires DiskOk(e, name, d) && Planned(e, name, d, op, w) && ReadyToPublish(d, pid, w, ino)
    ensures DiskOk(e, name, Publish(d, w.file, ino))
  {
    PublishContents(d, w.file, ino);
    var d' := Publish(d, w.file, ino);
    if w.file == KeysFile {
      PlannedIsSerial(e, name, d, op, w);
      assert forall i :: 0 <= i < |d.keyVers| ==> d'.keyVers[i] == d.keyVers[i];
      assert forall i :: 0 <= i < |d.nsVers| ==> d'.nsVers[i] == d.nsVers[i];
    } else {
      assert d.nsVers == [] && d'.nsVers == [ino];
      assert forall i :: 0 <= i < |d.keyVers| ==> d'.keyVers[i] == d.keyVers[i];
    }
  }

  lemma PublishInit(e: Primitives, name: string, d: Disk, acks: seq<Outcome>, pid: nat, op: Op, w: Write, ino: nat)
    requires DiskOk(e, name, d) && Planned(e, name, d, op, w) && ReadyToPublish(d, pid, w, ino) && op.Init?
    ensures Landed(e, Publish(d, w.file, ino), acks, op, w)
  {
    PublishContents(d, w.file, ino);
    if w.file == KeysFile {
      assert Publish(d, w.file, ino).nsVers == d.nsVers;
    }
  }

  lemma SnocIssued(e: Primitives, h: seq<seq<Key>>, k: Key, token: string)
    requires h != [] && Appends(e, h[|h| - 1], h[|h| - 1] + [k], k) && Matches(e, k, token)
    ensures InHistory(e, h + [h[|h| - 1] + [k]], IssueOk(|h|, k, token))
  {
  }

  lemma PublishIssue(e: Primitives, name: string, d: Disk, acks: seq<Outcome>, pid: nat, op: Op, w: Write, ino: nat)
    requires DiskOk(e, name, d) && Planned(e, name, d, op, w) && ReadyToPublish(d, pid, w, ino) && AcksOk(e, d, acks)
    requires op.Issue?
    ensures Landed(e, Publish(d, w.file, ino), acks, op, w)
  {
    PublishContents(d, w.file, ino);
    var h := Hist(d);
    assert h[|h| - 1] == Current(d);
    SnocIssued(e, h, w.res.key, w.res.token);
    assert Hist(Publish(d, w.file, ino)) == h + [h[|h| - 1] + [w.res.key]];
  }

  lemma PublishRevoke(e: Primitives, name: string, d: Disk, acks: seq<Outcome>, pid: nat, op: Op, w: Write, ino: nat)
    requires DiskOk(e, name, d) && Planned(e, name, d, op, w) && ReadyToPublish(d, pid, w, ino) && AcksOk(e, d, acks)
    requires op.Revoke?
    ensures Landed(e, Publish(d, w.file, ino), acks, op, w)
  {
    PublishContents(d, w.file, ino);
    var h := Hist(d);
    assert h[|h| - 1] == Current(d);
    var h' := Hist(Publish(d, w.file, ino));
    assert h'[w.res.at] == KeysOf(w.doc) && h'[w.res.at - 1] == Current(d);
  }

  lemma PublishSelf(e: Primitives, name: string, d: Disk, acks: seq<Outcome>, pid: nat, op: Op, w: Write, ino: nat)
    requires DiskOk(e, name, d) && Planned(e, name, d, op, w) && ReadyToPublish(d, pid, w, ino) && AcksOk(e, d, acks)
    ensures Landed(e, Publish(d, w.file, ino), acks, op, w)
  {
    match op
    case Init(_) => PublishInit(e, name, d, acks, pid, op, w, ino);
    case Issue(_) => PublishIssue(e, name, d, acks, pid, op, w, ino);
    case Revoke(_) => PublishRevoke(e, name, d, acks, pid, op, w, ino);
    case Auth(_) =>
  }

  lemma PublishAcks(e: Primitives, name: string, d: Disk, pid: nat, op: Op, w: Write, ino: nat, acks: seq<Outcome>)
    requires DiskOk(e, name, d) && ReadyToPublish(d, pid, w, ino) && AcksOk(e, d, acks)
    ensures AcksOk(e, Publish(d, w.file, ino), acks)
  {
    PublishContents(d, w.file, ino);
    forall i | 0 <= i < |acks| ensures InHistory(e, Hist(Publish(d, w.file, ino)), acks[i]) {
      InHistorySnoc(e, Hist(d), KeysOf(ContentAt(d, ino)), acks[i]);
    }
  }

  lemma PublishInits(d: Disk, w: Write, ino: nat, inits: seq<(Namespace, nat)>, epoch: nat)
    requires (w.file == NsFile ==> d.nsVers == []) && ino < |d.inodes| && InitsOk(d, inits, epoch)
    ensures InitsOk(Publish(d, w.file, ino), inits, epoch)
  {
    PublishContents(d, w.file, ino);
  }

  /** The two locks are enough: no other call has decided on a write when one call renames its own. */
  lemma NoRival(e: Primitives, name: string, d: Disk, acks: seq<Outcome>, pid: nat, p: Proc, q: nat, x: Proc, w: Write)
    requires q != pid && Holds(p) && ProcOk(e, name, d, acks, pid, p) && ProcOk(e, name, d, acks, q, x)
    requires Planned(e, name, d, p.op, w) && !p.pc.Start? && !p.pc.Done?
    ensures !(x.pc.Decided? || x.pc.Created? || x.pc.Written? || x.pc.Synced?)
    ensures x.pc.Renamed? || x.pc.Unlocking? ==> w.file == NsFile || !IsChange(if x.pc.Renamed? then x.pc.w.res else x.pc.out)
    ensures p.op.Init? ==> !(x.op.Init? && Holds(x)) && (w.file == NsFile ==> !(Holds(x) && (x.op.Issue? || x.op.Revoke?)))
    ensures !p.op.Init? ==> x.op.Init? || !Holds(x)
  {
  }

  lemma PublishOthers(e: Primitives, name: string, d: Disk, acks: seq<Outcome>, pid: nat, p: Proc, w: Write, ino: nat, q: nat, x: Proc)
    requires DiskOk(e, name, d) && q != pid && ProcOk(e, name, d, acks, pid, p) && ProcOk(e, name, d, acks, q, x)
    requires p.pc == Synced(w, ino)
    ensures ProcOk(e, name, Publish(d, w.file, ino), acks, q, x)
  {
    if x.pc.Settled? || x.pc.Renamed? || x.pc.Unlocking? {
      NoRival(e, name, d, acks, pid, p, q, x, w);
      PublishHolder(e, name, d, acks, pid, w, ino, q, x);
    } else if x.pc.Opened? || x.pc.Done? {
      PublishReader(e, name, d, acks, pid, w, ino, q, x);
    } else {
      NoRival(e, name, d, acks, pid, p, q, x, w);
    }
  }

  /** A call under the other lock keeps what it knows when a file is named that its own result does not
      depend on. */
  lemma PublishHolder(e: Primitives, name: string, d: Disk, acks: seq<Outcome>, pid: nat, w: Write, ino: nat, q: nat, x: Proc)
    requires ProcOk(e, name, d, acks, q, x) && (x.pc.Settled? || x.pc.Renamed? || x.pc.Unlocking?)
    requires ino < |d.inodes|
    requires if w.file == NsFile then d.nsVers == [] && !(x.op.Init? && Holds(x)) && !(x.op.Issue? || x.op.Revoke?)
             else x.pc.Settled? || !IsChange(if x.pc.Renamed? then x.pc.w.res else x.pc.out)
    ensures ProcOk(e, name, Publish(d, w.file, ino), acks, q, x)
  {
    PublishContents(d, w.file, ino);
  }

  lemma PublishReader(e: Primitives, name: string, d: Disk, acks: seq<Outcome>, pid: nat, w: Write, ino: nat, q: nat, x: Proc)
    requires ProcOk(e, name, d, acks, q, x) && (x.pc.Opened? || x.pc.Done?) && ino < |d.inodes|
    ensures ProcOk(e, name, Publish(d, w.file, ino), acks, q, x)
  {
    PublishContents(d, w.file, ino);
    if x.pc.Done? && x.pc.out.AuthDone? {
      assert Hist(Publish(d, w.file, ino))[x.pc.out.at] == Hist(d)[x.pc.out.at];
    }
  }

  // ---- The other steps of one call, for the call itself ----

  lemma LockedIssue(e: Primitives, name: string, d: Disk, acks: seq<Outcome>, pid: nat, raw: string, draw: Draw)
    requires KeyFilesOk(d) && ValidLabel(TrimSpace(raw)) && ValidDraw(draw)
    ensures PcOk(e, name, d, acks, pid, Issue(raw), ActLocked(e, name, d, Issue(raw), draw))
  {
    var k := Record(e, draw.id, draw.secret, TrimSpace(raw), draw.now);
    assert Matches(e, k, Print(draw.id, draw.secret)) && k.keyLabel == TrimSpace(raw) by {
      RecordMatches(e, draw.id, draw.secret, TrimSpace(raw), draw.now);
    }
    DrawnFrom(e, draw, TrimSpace(raw));
  }

  lemma DrawnFrom(e: Primitives, draw: Draw, keyLabel: string)
    requires ValidDraw(draw)
    ensures Drawn(e, Record(e, draw.id, draw.secret, keyLabel, draw.now), Print(draw.id, draw.secret))
  {
  }

  lemma LockedRevoke(e: Primitives, name: string, d: Disk, acks: seq<Outcome>, pid: nat, id: string, draw: Draw)
    requires KeyFilesOk(d)
    ensures PcOk(e, name, d, acks, pid, Revoke(id), ActLocked(e, name, d, Revoke(id), draw))
  {
  }

  lemma LockedInit(e: Primitives, name: string, d: Disk, acks: seq<Outcome>, pid: nat, now: int, draw: Draw)
    requires NsFilesOk(name, d)
    ensures PcOk(e, name, d, acks, pid, Init(now), ActLocked(e, name, d, Init(now), draw))
  {
  }

  lemma LockedSelf(e: Primitives, name: string, d: Disk, acks: seq<Outcome>, pid: nat, p: Proc, draw: Draw)
    requires DiskOk(e, name, d) && ProcOk(e, name, d, acks, pid, p) && p.pc == Locked && ValidDraw(draw)
    ensures ProcOk(e, name, d, acks, pid, p.(pc := ActLocked(e, name, d, p.op, draw)))
  {
    match p.op
    case Init(now) => LockedInit(e, name, d, acks, pid, now, draw);
    case Issue(raw) => LockedIssue(e, name, d, acks, pid, raw, draw);
    case Revoke(id) => LockedRevoke(e, name, d, acks, pid, id, draw);
  }

  lemma SettledSelf(e: Primitives, name: string, d: Disk, acks: seq<Outcome>, pid: nat, p: Proc, ns: Namespace)
    requires ProcOk(e, name, d, acks, pid, p) && p.pc == Settled(ns)
    ensures ProcOk(e, name, d, acks, pid, p.(pc := ActSettled(d, ns)))
  {
  }

  lemma OpenedSelf(e: Primitives, name: string, d: Disk, acks: seq<Outcome>, pid: nat, p: Proc, ino: nat, at: nat)
    requires DiskOk(e, name, d) && ProcOk(e, name, d, acks, pid, p) && p.pc == Opened(ino, at)
    ensures ProcOk(e, name, d, acks, pid, p.(pc := ActOpened(e, d, p.op, ino, at)))
  {
    assert ReadableKeys(ContentAt(d, d.keyVers[at]));
    assert Hist(d)[at] == KeysOf(ContentAt(d, ino));
  }

  lemma RenamedSelf(e: Primitives, name: string, d: Disk, acks: seq<Outcome>, pid: nat, p: Proc, w: Write)
    requires DiskOk(e, name, d) && ProcOk(e, name, d, acks, pid, p) && p.pc == Renamed(w)
    ensures ProcOk(e, name, SyncDir(d), acks, pid, p.(pc := AfterWrite(w)))
  {
    SameFilesHist(d, SyncDir(d), pid);
    SameFilesNs(name, d, SyncDir(d), pid);
  }

  // ---- One call's step and the rest of the state ----

  /** s with the directory and the program counter of one call replaced. */
  function Moved(s: State, d: Disk, pid: nat, pc: Pc): State
    requires pid in s.procs
  {
    s.(disk := d, procs := s.procs[pid := s.procs[pid].(pc := pc)])
  }

  /** Only pid's own lock moves, and afterwards pid holds it exactly if its new program counter says so. */
  predicate LocksMove(d: Disk, d': Disk, pid: nat, p: Proc, pc: Pc) {
    var lock, lock' := LockOf(d, p.op), LockOf(d', p.op);
    && (if p.op.Init? then d'.keyLock == d.keyLock else d'.nsLock == d.nsLock)
    && (lock' == lock || lock == None || lock == Some(pid))
    && (lock' != lock ==> lock' == if Holds(p.(pc := pc)) then Some(pid) else None)
    && (lock' == Some(pid) ==> Holds(p.(pc := pc)) || !Holds(p))
  }

  lemma LocksMoved(e: Primitives, s: State, d: Disk, pid: nat, pc: Pc)
    requires LocksOk(s) && pid in s.procs && LocksMove(s.disk, d, pid, s.procs[pid], pc)
    ensures LocksOk(Moved(s, d, pid, pc))
  {
  }

  /** A step that names no new file keeps the invariant when the call itself stays in order. */
  lemma QuietStep(e: Primitives, s: State, d: Disk, pid: nat, pc: Pc)
    requires Inv(e, s) && pid in s.procs && SameFiles(s.disk, d, pid) && LocksMove(s.disk, d, pid, s.procs[pid], pc)
    requires ProcOk(e, s.name, d, s.acks, pid, s.procs[pid].(pc := pc))
    ensures Inv(e, Moved(s, d, pid, pc))
  {
    var s' := Moved(s, d, pid, pc);
    SameFilesDisk(e, s.name, s.disk, d, pid);
    SameFilesAcks(e, s.name, s.disk, d, pid, s.acks);
    SameFilesInits(e, s.name, s.disk, d, pid, s.inits, s.epoch);
    LocksMoved(e, s, d, pid, pc);
    forall q | q in s'.procs ensures ProcOk(e, s.name, d, s.acks, q, s'.procs[q]) {
      if q != pid {
        assert ProcOk(e, s.name, s.disk, s.acks, q, s.procs[q]);
        SameFilesPc(e, s.name, s.disk, d, s.acks, pid, q, s.procs[q].op, s.procs[q].pc);
      }
    }
  }

  lemma PublishStep(e: Primitives, s: State, pid: nat, w: Write, ino: nat)
    requires Inv(e, s) && pid in s.procs && s.procs[pid].pc == Synced(w, ino) && ino < |s.disk.inodes|
    ensures Inv(e, Moved(s, Publish(s.disk, w.file, ino), pid, Renamed(w)))
  {
    var d := Publish(s.disk, w.file, ino);
    var p := s.procs[pid];
    assert ProcOk(e, s.name, s.disk, s.acks, pid, p);
    PublishDisk(e, s.name, s.disk, pid, p.op, w, ino);
    PublishAcks(e, s.name, s.disk, pid, p.op, w, ino, s.acks);
    PublishInits(s.disk, w, ino, s.inits, s.epoch);
    LocksMoved(e, s, d, pid, Renamed(w));
    PublishProcs(e, s, pid, w, ino);
  }

  lemma PublishProcs(e: Primitives, s: State, pid: nat, w: Write, ino: nat)
    requires DiskOk(e, s.name, s.disk) && ProcsOk(e, s) && AcksOk(e, s.disk, s.acks)
    requires pid in s.procs && s.procs[pid].pc == Synced(w, ino) && ino < |s.disk.inodes|
    ensures ProcsOk(e, Moved(s, Publish(s.disk, w.file, ino), pid, Renamed(w)))
  {
    var d := Publish(s.disk, w.file, ino);
    var p := s.procs[pid];
    var s' := Moved(s, d, pid, Renamed(w));
    assert ProcOk(e, s.name, s.disk, s.acks, pid, p);
    forall q | q in s'.procs ensures ProcOk(e, s.name, d, s.acks, q, s'.procs[q]) {
      if q == pid {
        PublishSelfProc(e, s.name, s.disk, s.acks, pid, p, w, ino);
      } else {
        assert ProcOk(e, s.name, s.disk, s.acks, q, s.procs[q]);
        PublishOthers(e, s.name, s.disk, s.acks, pid, p, w, ino, q, s.procs[q]);
      }
    }
  }

  lemma PublishSelfProc(e: Primitives, name: string, d: Disk, acks: seq<Outcome>, pid: nat, p: Proc, w: Write, ino: nat)
    requires DiskOk(e, name, d) && ProcOk(e, name, d, acks, pid, p) && AcksOk(e, d, acks)
    requires p.pc == Synced(w, ino) && ino < |d.inodes|
    ensures ProcOk(e, name, Publish(d, w.file, ino), acks, pid, p.(pc := Renamed(w)))
  {
    PublishSelf(e, name, d, acks, pid, p.op, w, ino);
  }

  // ---- Reporting ----

  lemma AcknowledgeAcks(e: Primitives, d: Disk, acks: seq<Outcome>, op: Op, out: Outcome)
    requires AcksOk(e, d, acks) && Finishing(e, d, acks, op, out) && IsChange(out)
    ensures AcksOk(e, d, acks + [out])
  {
    forall i | 0 <= i < |acks| ensures acks[i].at < out.at {
      assert acks[i] in acks;
    }
    AcksSnoc(e, d, acks, out);
  }

  lemma AcksSnoc(e: Primitives, d: Disk, acks: seq<Outcome>, out: Outcome)
    requires AcksOk(e, d, acks) && IsChange(out) && InHistory(e, Hist(d), out) && out.at < d.keyDur && d.nsDur == 1
    requires forall i :: 0 <= i < |acks| ==> acks[i].at < out.at
    ensures AcksOk(e, d, acks + [out])
  {
  }

  lemma AcknowledgeInits(d: Disk, inits: seq<(Namespace, nat)>, epoch: nat, ns: Namespace)
    requires InitsOk(d, inits, epoch) && InitDone(d, ns)
    ensures InitsOk(d, inits + [(ns, epoch)], epoch)
  {
  }

  /** A report touches no other call: the ones that wait to report a change hold the same lock. */
  lemma AcknowledgeOther(e: Primitives, name: string, d: Disk, acks: seq<Outcome>, pid: nat, p: Proc, out: Outcome, q: nat, x: Proc)
    requires q != pid && ProcOk(e, name, d, acks, pid, p) && p.pc == Unlocking(out) && IsChange(out)
    requires ProcOk(e, name, d, acks, q, x)
    ensures ProcOk(e, name, d, acks + [out], q, x)
  {
    assert !(Holds(x) && (x.op.Issue? || x.op.Revoke?));
  }

  /** What is left of a call once it has released its lock. */
  lemma ReleasedOther(e: Primitives, name: string, d: Disk, acks: seq<Outcome>, pid: nat, p: Proc, q: nat, x: Proc)
    requires DiskOk(e, name, d) && q != pid && Holds(p) && LockOf(d, p.op) == Some(pid) && ProcOk(e, name, d, acks, q, x)
    ensures ProcOk(e, name, SetLock(d, p.op, None), acks, q, x)
  {
    SameFilesPc(e, name, d, SetLock(d, p.op, None), acks, pid, q, x.op, x.pc);
  }

  lemma AcknowledgeGlobals(e: Primitives, s: State, pid: nat, out: Outcome)
    requires Inv(e, s) && pid in s.procs && s.procs[pid].pc == Unlocking(out)
    ensures var a := Acknowledge(s, s.procs[pid]);
            AcksOk(e, s.disk, a.acks) && InitsOk(s.disk, a.inits, a.epoch)
  {
    var p := s.procs[pid];
    assert ProcOk(e, s.name, s.disk, s.acks, pid, p);
    if IsChange(out) {
      AcknowledgeAcks(e, s.disk, s.acks, p.op, out);
    } else if out.InitOk? {
      AcknowledgeInits(s.disk, s.inits, s.epoch, out.ns);
    }
  }

  lemma UnlockProcs(e: Primitives, s: State, pid: nat, out: Outcome)
    requires Inv(e, s) && pid in s.procs && s.procs[pid].pc == Unlocking(out)
    ensures ProcsOk(e, Moved(Acknowledge(s, s.procs[pid]), SetLock(s.disk, s.procs[pid].op, None), pid, Done(out)))
  {
    var p := s.procs[pid];
    assert ProcOk(e, s.name, s.disk, s.acks, pid, p);
    var a := Acknowledge(s, p);
    var d := SetLock(s.disk, p.op, None);
    var s' := Moved(a, d, pid, Done(out));
    forall q | q in s'.procs ensures ProcOk(e, s'.name, d, s'.acks, q, s'.procs[q]) {
      if q != pid {
        var x := s.procs[q];
        assert ProcOk(e, s.name, s.disk, s.acks, q, x);
        if IsChange(out) {
          AcknowledgeOther(e, s.name, s.disk, s.acks, pid, p, out, q, x);
        }
        ReleasedOther(e, s.name, s.disk, a.acks, pid, p, q, x);
      }
    }
  }

  lemma UnlockStep(e: Primitives, s: State, pid: nat, out: Outcome)
    requires Inv(e, s) && pid in s.procs && s.procs[pid].pc == Unlocking(out)
    ensures Inv(e, Moved(Acknowledge(s, s.procs[pid]), SetLock(s.disk, s.procs[pid].op, None), pid, Done(out)))
  {
    var p := s.procs[pid];
    var a := Acknowledge(s, p);
    var d := SetLock(s.disk, p.op, None);
    AcknowledgeGlobals(e, s, pid, out);
    UnlockProcs(e, s, pid, out);
    SameFilesDisk(e, s.name, s.disk, d, pid);
    SameFilesAcks(e, s.name, s.disk, d, pid, a.acks);
    SameFilesInits(e, s.name, s.disk, d, pid, a.inits, a.epoch);
    UnlockLocks(e, s, pid, out);
  }

  lemma UnlockLocks(e: Primitives, s: State, pid: nat, out: Outcome)
    requires Inv(e, s) && pid in s.procs && s.procs[pid].pc == Unlocking(out)
    ensures LocksOk(Moved(Acknowledge(s, s.procs[pid]), SetLock(s.disk, s.procs[pid].op, None), pid, Done(out)))
  {
    assert ProcOk(e, s.name, s.disk, s.acks, pid, s.procs[pid]);
    LocksMoved(e, s, SetLock(s.disk, s.procs[pid].op, None), pid, Done(out));
  }

  // ---- All steps ----

  lemma StartSelf(e: Primitives, name: string, d: Disk, acks: seq<Outcome>, pid: nat, p: Proc)
    requires ProcOk(e, name, d, acks, pid, p) && p.pc.Start? && DiskOk(e, name, d)
    ensures var r := ActStart(d, p.op);
            SameFiles(d, r.0, pid) && LocksMove(d, r.0, pid, p, r.1) && ProcOk(e, name, r.0, acks, pid, p.(pc := r.1))
  {
  }

  lemma CheckedSelf(e: Primitives, name: string, d: Disk, acks: seq<Outcome>, pid: nat, p: Proc)
    requires ProcOk(e, name, d, acks, pid, p) && p.pc.Checked? && DiskOk(e, name, d) && ActChecked(d, pid, p.op).Some?
    ensures var r := ActChecked(d, pid, p.op).value;
            SameFiles(d, r.0, pid) && LocksMove(d, r.0, pid, p, r.1) && ProcOk(e, name, r.0, acks, pid, p.(pc := r.1))
  {
  }

  lemma TempSelf(e: Primitives, name: string, d: Disk, d': Disk, acks: seq<Outcome>, pid: nat, p: Proc, pc: Pc)
    requires DiskOk(e, name, d) && ProcOk(e, name, d, acks, pid, p) && SameFiles(d, d', pid)
    requires d'.nsLock == d.nsLock && d'.keyLock == d.keyLock && Holds(p)
    requires p.pc.Decided? || p.pc.Created? || p.pc.Written?
    requires pc.Created? || pc.Written? || pc.Synced?
    requires pc.w == p.pc.w && Owned(d', pid, pc.ino)
    requires !pc.Created? ==> d'.inodes[pc.ino].content == pc.w.doc
    requires pc.Synced? ==> d'.inodes[pc.ino].synced
    ensures LocksMove(d, d', pid, p, pc) && ProcOk(e, name, d', acks, pid, p.(pc := pc))
  {
    SameFilesPlanned(e, name, d, d', pid, p.op, p.pc.w);
  }

  lemma InPlaceLocks(d: Disk, d': Disk, pid: nat, p: Proc, pc: Pc)
    requires d'.nsLock == d.nsLock && d'.keyLock == d.keyLock && (Holds(p) ==> Holds(p.(pc := pc)))
    ensures LocksMove(d, d', pid, p, pc)
  {
  }

  lemma LockedStep(e: Primitives, s: State, pid: nat, draw: Draw)
    requires Inv(e, s) && pid in s.procs && s.procs[pid].pc.Locked? && ValidDraw(draw)
    ensures Inv(e, Moved(s, s.disk, pid, ActLocked(e, s.name, s.disk, s.procs[pid].op, draw)))
  {
    var p, d := s.procs[pid], s.disk;
    assert ProcOk(e, s.name, d, s.acks, pid, p);
    var pc := ActLocked(e, s.name, d, p.op, draw);
    LockedSelf(e, s.name, d, s.acks, pid, p, draw);
    InPlaceLocks(d, d, pid, p, pc);
    QuietStep(e, s, d, pid, pc);
  }

  lemma SettledStep(e: Primitives, s: State, pid: nat)
    requires Inv(e, s) && pid in s.procs && s.procs[pid].pc.Settled?
    ensures Inv(e, Moved(s, s.disk, pid, ActSettled(s.disk, s.procs[pid].pc.ns)))
  {
    var p, d := s.procs[pid], s.disk;
    assert ProcOk(e, s.name, d, s.acks, pid, p);
    var pc := ActSettled(d, p.pc.ns);
    SettledSelf(e, s.name, d, s.acks, pid, p, p.pc.ns);
    InPlaceLocks(d, d, pid, p, pc);
    QuietStep(e, s, d, pid, pc);
  }

  lemma OpenedStep(e: Primitives, s: State, pid: nat)
    requires Inv(e, s) && pid in s.procs && s.procs[pid].pc.Opened?
    ensures Inv(e, Moved(s, s.disk, pid, ActOpened(e, s.disk, s.procs[pid].op, s.procs[pid].pc.ino, s.procs[pid].pc.at)))
  {
    var p, d := s.procs[pid], s.disk;
    assert ProcOk(e, s.name, d, s.acks, pid, p);
    var pc := ActOpened(e, d, p.op, p.pc.ino, p.pc.at);
    OpenedSelf(e, s.name, d, s.acks, pid, p, p.pc.ino, p.pc.at);
    InPlaceLocks(d, d, pid, p, pc);
    QuietStep(e, s, d, pid, pc);
  }

  lemma RenamedStep(e: Primitives, s: State, pid: nat)
    requires Inv(e, s) && pid in s.procs && s.procs[pid].pc.Renamed?
    ensures Inv(e, Moved(s, SyncDir(s.disk), pid, AfterWrite(s.procs[pid].pc.w)))
  {
    var p, d := s.procs[pid], s.disk;
    assert ProcOk(e, s.name, d, s.acks, pid, p);
    var pc := AfterWrite(p.pc.w);
    RenamedSelf(e, s.name, d, s.acks, pid, p, p.pc.w);
    InPlaceLocks(d, SyncDir(d), pid, p, pc);
    QuietStep(e, s, SyncDir(d), pid, pc);
  }

  lemma DecidedStep(e: Primitives, s: State, pid: nat, w: Write)
    requires Inv(e, s) && pid in s.procs && s.procs[pid].pc == Decided(w)
    ensures Inv(e, Moved(s, AddInode(s.disk, pid), pid, Created(w, |s.disk.inodes|)))
  {
    var p, d, d' := s.procs[pid], s.disk, AddInode(s.disk, pid);
    assert ProcOk(e, s.name, d, s.acks, pid, p);
    TempSelf(e, s.name, d, d', s.acks, pid, p, Created(w, |d.inodes|));
    QuietStep(e, s, d', pid, Created(w, |d.inodes|));
  }

  lemma CreatedStep(e: Primitives, s: State, pid: nat, w: Write, ino: nat)
    requires Inv(e, s) && pid in s.procs && s.procs[pid].pc == Created(w, ino) && ino < |s.disk.inodes|
    ensures Inv(e, Moved(s, SetInode(s.disk, ino, s.disk.inodes[ino].(content := w.doc, synced := false)), pid, Written(w, ino)))
  {
    var p, d := s.procs[pid], s.disk;
    var d' := SetInode(d, ino, d.inodes[ino].(content := w.doc, synced := false));
    assert ProcOk(e, s.name, d, s.acks, pid, p);
    TempSelf(e, s.name, d, d', s.acks, pid, p, Written(w, ino));
    QuietStep(e, s, d', pid, Written(w, ino));
  }

  lemma WrittenStep(e: Primitives, s: State, pid: nat, w: Write, ino: nat)
    requires Inv(e, s) && pid in s.procs && s.procs[pid].pc == Written(w, ino) && ino < |s.disk.inodes|
    ensures Inv(e, Moved(s, SetInode(s.disk, ino, s.disk.inodes[ino].(synced := true)), pid, Synced(w, ino)))
  {
    var p, d := s.procs[pid], s.disk;
    var d' := SetInode(d, ino, d.inodes[ino].(synced := true));
    assert ProcOk(e, s.name, d, s.acks, pid, p);
    TempSelf(e, s.name, d, d', s.acks, pid, p, Synced(w, ino));
    QuietStep(e, s, d', pid, Synced(w, ino));
  }

  lemma StartStep(e: Primitives, s: State, pid: nat)
    requires Inv(e, s) && pid in s.procs && s.procs[pid].pc.Start?
    ensures var r := ActStart(s.disk, s.procs[pid].op); Inv(e, Moved(s, r.0, pid, r.1))
  {
    var p := s.procs[pid];
    assert ProcOk(e, s.name, s.disk, s.acks, pid, p);
    StartSelf(e, s.name, s.disk, s.acks, pid, p);
    var r := ActStart(s.disk, p.op);
    QuietStep(e, s, r.0, pid, r.1);
  }

  lemma CheckedStep(e: Primitives, s: State, pid: nat)
    requires Inv(e, s) && pid in s.procs && s.procs[pid].pc.Checked? && ActChecked(s.disk, pid, s.procs[pid].op).Some?
    ensures var r := ActChecked(s.disk, pid, s.procs[pid].op).value; Inv(e, Moved(s, r.0, pid, r.1))
  {
    var p := s.procs[pid];
    assert ProcOk(e, s.name, s.disk, s.acks, pid, p);
    CheckedSelf(e, s.name, s.disk, s.acks, pid, p);
    var r := ActChecked(s.disk, pid, p.op).value;
    QuietStep(e, s, r.0, pid, r.1);
  }

  lemma NextMoves(e: Primitives, s: State, pid: nat, draw: Draw)
    requires Next(e, s, Advance(pid, draw)).Some?
    ensures var p := s.procs[pid];
            var r := Act(e, s.name, s.disk, pid, p, draw).value;
            Next(e, s, Advance(pid, draw)).value == Moved(Acknowledge(s, p), r.0, pid, r.1)
  {
  }

  predicate Writing(pc: Pc) {
    pc.Decided? || pc.Created? || pc.Written? || pc.Synced?
  }

  lemma WritingInv(e: Primitives, s: State, pid: nat, draw: Draw)
    requires Inv(e, s) && Next(e, s, Advance(pid, draw)).Some? && Writing(s.procs[pid].pc)
    ensures Inv(e, Next(e, s, Advance(pid, draw)).value)
  {
    NextMoves(e, s, pid, draw);
    match s.procs[pid].pc
    case Decided(w) => DecidedStep(e, s, pid, w);
    case Created(w, ino) => CreatedStep(e, s, pid, w, ino);
    case Written(w, ino) => WrittenStep(e, s, pid, w, ino);
    case Synced(w, ino) => PublishStep(e, s, pid, w, ino);
  }

  lemma DecidingInv(e: Primitives, s: State, pid: nat, draw: Draw)
    requires Inv(e, s) && Next(e, s, Advance(pid, draw)).Some?
    requires var pc := s.procs[pid].pc; pc.Start? || pc.Checked? || pc.Locked? || pc.Settled?
    ensures Inv(e, Next(e, s, Advance(pid, draw)).value)
  {
    NextMoves(e, s, pid, draw);
    match s.procs[pid].pc
    case Start => StartStep(e, s, pid);
    case Checked => CheckedStep(e, s, pid);
    case Locked => LockedStep(e, s, pid, draw);
    case Settled(_) => SettledStep(e, s, pid);
  }

  lemma FinishingInv(e: Primitives, s: State, pid: nat, draw: Draw)
    requires Inv(e, s) && Next(e, s, Advance(pid, draw)).Some?
    requires s.procs[pid].pc.Renamed? || s.procs[pid].pc.Opened?
    ensures Inv(e, Next(e, s, Advance(pid, draw)).value)
  {
    NextMoves(e, s, pid, draw);
    if s.procs[pid].pc.Renamed? {
      RenamedStep(e, s, pid);
    } else {
      OpenedStep(e, s, pid);
    }
  }

  lemma UnlockingInv(e: Primitives, s: State, pid: nat, draw: Draw)
    requires Inv(e, s) && Next(e, s, Advance(pid, draw)).Some? && s.procs[pid].pc.Unlocking?
    ensures Inv(e, Next(e, s, Advance(pid, draw)).value)
  {
    NextMoves(e, s, pid, draw);
    UnlockStep(e, s, pid, s.procs[pid].pc.out);
  }

  lemma AdvanceInv(e: Primitives, s: State, pid: nat, draw: Draw)
    requires Inv(e, s) && Next(e, s, Advance(pid, draw)).Some?
    ensures Inv(e, Next(e, s, Advance(pid, draw)).value)
  {
    var pc := s.procs[pid].pc;
    if Writing(pc) {
      WritingInv(e, s, pid, draw);
    } else if pc.Unlocking? {
      UnlockingInv(e, s, pid, draw);
    } else if pc.Renamed? || pc.Opened? {
      FinishingInv(e, s, pid, draw);
    } else {
      DecidingInv(e, s, pid, draw);
    }
  }

  lemma FailInv(e: Primitives, s: State, pid: nat)
    requires Inv(e, s) && Next(e, s, Fail(pid)).Some?
    ensures Inv(e, Next(e, s, Fail(pid)).value)
  {
    assert ProcOk(e, s.name, s.disk, s.acks, pid, s.procs[pid]);
    QuietStep(e, s, s.disk, pid, Failed(s.procs[pid]).value);
  }

  lemma SpawnInv(e: Primitives, s: State, pid: nat, op: Op)
    requires Inv(e, s) && Next(e, s, Spawn(pid, op)).Some?
    ensures Inv(e, Next(e, s, Spawn(pid, op)).value)
  {
  }

  lemma CrashInv(e: Primitives, s: State, pid: nat)
    requires Inv(e, s) && Next(e, s, Crash(pid)).Some?
    ensures Inv(e, Next(e, s, Crash(pid)).value)
  {
    var s' := Next(e, s, Crash(pid)).value;
    assert ProcOk(e, s.name, s.disk, s.acks, pid, s.procs[pid]);
    SameFilesDisk(e, s.name, s.disk, s'.disk, pid);
    SameFilesAcks(e, s.name, s.disk, s'.disk, pid, s.acks);
    SameFilesInits(e, s.name, s.disk, s'.disk, pid, s.inits, s.epoch);
    CrashProcs(e, s, pid);
  }

  /** The calls that survive the crash of another process. */
  lemma CrashProcs(e: Primitives, s: State, pid: nat)
    requires DiskOk(e, s.name, s.disk) && ProcsOk(e, s) && pid in s.procs
    ensures ProcsOk(e, Next(e, s, Crash(pid)).value)
  {
    var p := s.procs[pid];
    var d' := if Holds(p) then SetLock(s.disk, p.op, None) else s.disk;
    assert ProcOk(e, s.name, s.disk, s.acks, pid, p);
    forall q | q in s.procs && q != pid ensures ProcOk(e, s.name, d', s.acks, q, s.procs[q]) {
      assert ProcOk(e, s.name, s.disk, s.acks, q, s.procs[q]);
      if Holds(p) {
        ReleasedOther(e, s.name, s.disk, s.acks, pid, p, q, s.procs[q]);
      }
    }
  }

  // ---- Power loss ----

  lemma CutHist(d: Disk, nsKeep: nat, keyKeep: nat, dirKeep: bool, lost: set<nat>)
    requires KeyFilesOk(d) && nsKeep <= |d.nsVers| && keyKeep <= |d.keyVers|
    ensures Hist(Cut(d, nsKeep, keyKeep, dirKeep, lost)) == Hist(d)[..keyKeep]
    ensures KeyFilesOk(Cut(d, nsKeep, keyKeep, dirKeep, lost))
  {
    var d' := Cut(d, nsKeep, keyKeep, dirKeep, lost);
    forall i | 0 <= i < keyKeep
      ensures ContentAt(d', d'.keyVers[i]) == ContentAt(d, d.keyVers[i]) && PublishedFile(d', d'.keyVers[i])
    {
      assert PublishedFile(d, d.keyVers[i]);
    }
  }

  lemma CutNs(name: string, d: Disk, nsKeep: nat, keyKeep: nat, dirKeep: bool, lost: set<nat>)
    requires NsFilesOk(name, d) && nsKeep <= |d.nsVers| && keyKeep <= |d.keyVers|
    ensures NsFilesOk(name, Cut(d, nsKeep, keyKeep, dirKeep, lost))
    ensures nsKeep > 0 ==> NsContent(Cut(d, nsKeep, keyKeep, dirKeep, lost)) == NsContent(d)
  {
    var d' := Cut(d, nsKeep, keyKeep, dirKeep, lost);
    forall i | 0 <= i < nsKeep
      ensures ContentAt(d', d'.nsVers[i]) == ContentAt(d, d.nsVers[i]) && PublishedFile(d', d'.nsVers[i])
    {
      assert PublishedFile(d, d.nsVers[i]);
    }
  }

  lemma SerialPrefix(e: Primitives, h: seq<seq<Key>>, k: nat)
    requires Serial(e, h) && k <= |h|
    ensures Serial(e, h[..k])
  {
    var p := h[..k];
    forall i | 0 < i < |p| ensures SerialStep(e, p[i - 1], p[i]) {
      assert SerialStep(e, h[i - 1], h[i]);
    }
  }

  lemma PowerLossInv(e: Primitives, s: State, nsKeep: nat, keyKeep: nat, dirKeep: bool, lost: set<nat>)
    requires Inv(e, s) && Next(e, s, PowerLoss(nsKeep, keyKeep, dirKeep, lost)).Some?
    ensures Inv(e, Next(e, s, PowerLoss(nsKeep, keyKeep, dirKeep, lost)).value)
  {
    var s' := Next(e, s, PowerLoss(nsKeep, keyKeep, dirKeep, lost)).value;
    CutHist(s.disk, nsKeep, keyKeep, dirKeep, lost);
    CutNs(s.name, s.disk, nsKeep, keyKeep, dirKeep, lost);
    SerialPrefix(e, Hist(s.disk), keyKeep);
    forall i | 0 <= i < |s.acks| ensures InHistory(e, Hist(s'.disk), s.acks[i]) {
      var out := s.acks[i];
      assert InHistory(e, Hist(s.disk), out) && out.at < s.disk.keyDur;
      assert Hist(s'.disk)[out.at] == Hist(s.disk)[out.at] && Hist(s'.disk)[out.at - 1] == Hist(s.disk)[out.at - 1];
    }
  }

  lemma NextInv(e: Primitives, s: State, step: Step)
    requires Inv(e, s) && Next(e, s, step).Some?
    ensures Inv(e, Next(e, s, step).value)
  {
    match step
    case Spawn(pid, op) => SpawnInv(e, s, pid, op);
    case Advance(pid, draw) => AdvanceInv(e, s, pid, draw);
    case Fail(pid) => FailInv(e, s, pid);
    case Crash(pid) => CrashInv(e, s, pid);
    case PowerLoss(nsKeep, keyKeep, dirKeep, lost) => PowerLossInv(e, s, nsKeep, keyKeep, dirKeep, lost);
  }

  /** Every run keeps the invariant. */
  lemma {:induction false} RunInv(e: Primitives, s: State, steps: seq<Step>)
    requires Inv(e, s) && Run(e, s, steps).Some?
    ensures Inv(e, Run(e, s, steps).value)
    decreases |steps|
  {
    if steps != [] {
      var n := |steps| - 1;
      RunInv(e, s, steps[..n]);
      NextInv(e, Run(e, s, steps[..n]).value, steps[n]);
    }
  }

  lemma ReachableInv(e: Primitives, s: State)
    requires Reachable(e, s)
    ensures Inv(e, s)
  {
    var steps :| Run(e, Fresh(s.name), steps) == Some(s);
    FreshInv(e, s.name);
    RunInv(e, Fresh(s.name), steps);
  }
}
