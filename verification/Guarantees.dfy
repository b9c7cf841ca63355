/** What the store promises its callers, over every run of the protocol. */
module Guarantees {
  import opened Text
  import opened Token
  import opened KeyList
  import opened History
  import opened Protocol
  import opened Invariant
  import opened Preservation

  lemma ReachableNext(e: Primitives, s: State, step: Step)
    requires Reachable(e, s) && Next(e, s, step).Some?
    ensures Reachable(e, Next(e, s, step).value)
  {
    var steps :| Run(e, Fresh(s.name), steps) == Some(s);
    var all := steps + [step];
    assert all[..|all| - 1] == steps;
    assert Run(e, Fresh(s.name), all) == Next(e, s, step);
    assert Next(e, s, step).value.name == s.name;
  }

  lemma {:induction false} RunCons(e: Primitives, s: State, step: Step, steps: seq<Step>)
    requires Next(e, s, step).Some?
    ensures Run(e, s, [step] + steps) == Run(e, Next(e, s, step).value, steps)
    decreases |steps|
  {
    var all := [step] + steps;
    if steps == [] {
      assert all[..|all| - 1] == [];
    } else {
      var n := |steps| - 1;
      assert all[..|all| - 1] == [step] + steps[..n];
      RunCons(e, s, step, steps[..n]);
    }
  }

  // ---- Serial history ----

  /** What a call's rename adds to the history: the first, empty version, a key under the label the call
      was given, or the removal of the ID it was given. */
  ghost predicate Effect(e: Primitives, h: seq<seq<Key>>, h': seq<seq<Key>>, op: Op) {
    && |h'| == |h| + 1 && h'[..|h|] == h
    && match op
       case Init(_) => h == [] && h' == [[]]
       case Issue(raw) => exists k :: IssuedAt(e, h', |h|, k) && k.keyLabel == TrimSpace(raw)
       case Revoke(id) => RevokedAt(h', |h|, id)
       case Auth(_) => false
  }

  /** What one step does to the history of the key file: nothing, the effect of the call that renames its
      own file, or, when power is lost, the loss of versions that no directory sync had covered. */
  ghost predicate HistoryMoves(e: Primitives, s: State, step: Step, s': State) {
    var h, h' := Hist(s.disk), Hist(s'.disk);
    match step
    case Advance(pid, _) =>
      if pid in s.procs && s.procs[pid].pc.Synced? && s.procs[pid].pc.w.file == KeysFile
      then Effect(e, h, h', s.procs[pid].op) else h' == h
    case PowerLoss(_, _, _, _) => s.disk.keyDur <= |h'| <= |h| && h' == h[..|h'|]
    case _ => h' == h
  }

  lemma QuietFiles(e: Primitives, s: State, step: Step)
    requires Inv(e, s) && Next(e, s, step).Some? && !step.PowerLoss?
    requires step.Advance? ==> !s.procs[step.pid].pc.Synced?
    ensures SameFiles(s.disk, Next(e, s, step).value.disk, step.pid)
  {
    if step.Advance? {
      var p := s.procs[step.pid];
      assert ProcOk(e, s.name, s.disk, s.acks, step.pid, p);
      NextMoves(e, s, step.pid, step.draw);
      QuietAct(e, s.name, s.disk, step.pid, p, step.draw);
    }
  }

  lemma QuietAct(e: Primitives, name: string, d: Disk, pid: nat, p: Proc, draw: Draw)
    requires d.nsDur <= |d.nsVers| && d.keyDur <= |d.keyVers| && (d.dirDur ==> d.dir)
    requires !p.pc.Synced? && (p.pc.Created? || p.pc.Written? ==> Owned(d, pid, p.pc.ino))
    requires Act(e, name, d, pid, p, draw).Some?
    ensures SameFiles(d, Act(e, name, d, pid, p, draw).value.0, pid)
  {
  }

  lemma QuietHistory(e: Primitives, s: State, step: Step)
    requires Inv(e, s) && Next(e, s, step).Some? && !step.PowerLoss?
    requires step.Advance? ==> !s.procs[step.pid].pc.Synced?
    ensures Hist(Next(e, s, step).value.disk) == Hist(s.disk)
    ensures var d, d' := s.disk, Next(e, s, step).value.disk;
            d'.nsVers == d.nsVers && d'.keyVers == d.keyVers && Current(d') == Current(d)
            && d.nsDur <= d'.nsDur && d.keyDur <= d'.keyDur && (d.dir ==> d'.dir)
            && (d.nsVers != [] ==> NsContent(d') == NsContent(d))
  {
    var d, d' := s.disk, Next(e, s, step).value.disk;
    var pid := step.pid;
    QuietFiles(e, s, step);
    SameFilesHist(d, d', pid);
    SameFilesNs(s.name, d, d', pid);
  }

  lemma PublishHistory(e: Primitives, s: State, pid: nat, draw: Draw)
    requires Inv(e, s) && Next(e, s, Advance(pid, draw)).Some? && s.procs[pid].pc.Synced?
    ensures var w, s' := s.procs[pid].pc.w, Next(e, s, Advance(pid, draw)).value;
            && Planned(e, s.name, s.disk, s.procs[pid].op, w)
            && s'.disk.nsDur == s.disk.nsDur && s'.disk.keyDur == s.disk.keyDur
            && (s.disk.nsVers != [] ==> s'.disk.nsVers == s.disk.nsVers && NsContent(s'.disk) == NsContent(s.disk))
            && Hist(s'.disk) == Hist(s.disk) + if w.file == KeysFile then [KeysOf(w.doc)] else []
  {
    var pc := s.procs[pid].pc;
    assert ProcOk(e, s.name, s.disk, s.acks, pid, s.procs[pid]);
    PublishContents(s.disk, pc.w.file, pc.ino);
    assert Hist(s.disk) + [] == Hist(s.disk);
  }

  lemma PublishEffect(e: Primitives, s: State, pid: nat, draw: Draw)
    requires Inv(e, s) && Next(e, s, Advance(pid, draw)).Some?
    requires s.procs[pid].pc.Synced? && s.procs[pid].pc.w.file == KeysFile
    ensures Effect(e, Hist(s.disk), Hist(Next(e, s, Advance(pid, draw)).value.disk), s.procs[pid].op)
  {
    PublishHistory(e, s, pid, draw);
    PlannedEffect(e, s.name, s.disk, s.procs[pid].op, s.procs[pid].pc.w);
  }

  lemma PlannedEffect(e: Primitives, name: string, d: Disk, op: Op, w: Write)
    requires Planned(e, name, d, op, w) && w.file == KeysFile
    ensures Effect(e, Hist(d), Hist(d) + [KeysOf(w.doc)], op)
  {
    match op
    case Init(_) => assert Hist(d) == [];
    case Issue(raw) => AppendEffect(e, d, raw, KeysOf(w.doc), w.res.key);
    case Revoke(id) => RemoveEffect(e, d, id, KeysOf(w.doc));
  }

  lemma AppendEffect(e: Primitives, d: Disk, raw: string, keys: seq<Key>, k: Key)
    requires d.keyVers != [] && Appends(e, Current(d), keys, k) && k.keyLabel == TrimSpace(raw)
    ensures Effect(e, Hist(d), Hist(d) + [keys], Issue(raw))
  {
    var h := Hist(d);
    var h' := h + [keys];
    assert h'[|h| - 1] == Current(d) && h'[|h|] == keys;
    assert IssuedAt(e, h', |h|, k);
  }

  lemma RemoveEffect(e: Primitives, d: Disk, id: string, keys: seq<Key>)
    requires d.keyVers != [] && Removes(Current(d), keys, id)
    ensures Effect(e, Hist(d), Hist(d) + [keys], Revoke(id))
  {
    var h := Hist(d);
    var h' := h + [keys];
    assert h'[|h| - 1] == Current(d) && h'[|h|] == keys;
  }

  lemma StepHistory(e: Primitives, s: State, step: Step)
    requires Inv(e, s) && Next(e, s, step).Some?
    ensures HistoryMoves(e, s, step, Next(e, s, step).value)
  {
    if step.PowerLoss? {
      CutHist(s.disk, step.nsKeep, step.keyKeep, step.dirKeep, step.lost);
    } else if step.Advance? && s.procs[step.pid].pc.Synced? {
      PublishHistory(e, s, step.pid, step.draw);
      if s.procs[step.pid].pc.w.file == KeysFile {
        PublishEffect(e, s, step.pid, step.draw);
      }
    } else {
      QuietHistory(e, s, step);
    }
  }

  /** No update is ever lost: over every run the contents of keys.json form a serial history. It grows only
      when a call renames its key file, by exactly that call's effect, and a power loss takes back only
      versions that no directory sync had covered. */
  lemma SerialHistory(e: Primitives, s: State, step: Step)
    requires Reachable(e, s) && Next(e, s, step).Some?
    ensures Serial(e, Hist(s.disk))
    ensures HistoryMoves(e, s, step, Next(e, s, step).value)
  {
    ReachableInv(e, s);
    StepHistory(e, s, step);
  }

  /** Every reported change is in the history as what was reported, it is durable, and changes were
      reported in the order of their versions. */
  lemma ReportsAreKept(e: Primitives, s: State, i: nat)
    requires Reachable(e, s) && i < |s.acks|
    ensures match s.acks[i]
            case IssueOk(at, k, token) => IssuedAt(e, Hist(s.disk), at, k) && Matches(e, k, token)
            case RevokeOk(at, id) => RevokedAt(Hist(s.disk), at, id)
            case _ => false
    ensures s.acks[i].at < s.disk.keyDur && s.disk.nsDur == 1
    ensures forall j :: i < j < |s.acks| ==> s.acks[j].IssueOk? || s.acks[j].RevokeOk?
    ensures forall j :: i < j < |s.acks| ==> s.acks[i].at < s.acks[j].at
  {
    ReachableInv(e, s);
    assert IsChange(s.acks[i]) && InHistory(e, Hist(s.disk), s.acks[i]);
  }

  /** A call is past its read: it has decided on a change of the key file, or has made one. */
  predicate PastRead(p: Proc) {
    && (p.op.Issue? || p.op.Revoke?)
    && (Writing(p.pc) || p.pc.Renamed? || (p.pc.Unlocking? && IsChange(p.pc.out)))
  }

  /** Cross-lock safety: while a call of Init has decided to write the empty key file there is no key
      file, and no call that changes keys is past its read, although it holds a different lock. */
  lemma InitNeverOverwrites(e: Primitives, s: State, pid: nat, q: nat)
    requires Reachable(e, s) && pid in s.procs && q in s.procs
    requires s.procs[pid].op.Init? && Writing(s.procs[pid].pc) && s.procs[pid].pc.w.file == KeysFile
    ensures s.disk.keyVers == [] && !PastRead(s.procs[q])
  {
    ReachableInv(e, s);
    assert ProcOk(e, s.name, s.disk, s.acks, pid, s.procs[pid]);
    assert ProcOk(e, s.name, s.disk, s.acks, q, s.procs[q]);
  }

  // ---- Power loss ----

  /** After a power loss the names refer to complete files, every change that was reported is still in
      the history, and so is the metadata file. */
  lemma RecoveryIsConsistent(e: Primitives, s: State, step: Step)
    requires Reachable(e, s) && step.PowerLoss? && Next(e, s, step).Some?
    ensures var d := Next(e, s, step).value.disk;
            && (d.keyVers != [] ==> ReadableKeys(KeysContent(d)))
            && (d.nsVers != [] ==> NsContent(d).Meta? && NsContent(d).ns.name == s.name)
            && Serial(e, Hist(d))
            && forall a :: a in s.acks ==>
                 IsChange(a) && InHistory(e, Hist(d), a) && a.at <= |d.keyVers| - 1 && d.nsVers != []
  {
    var s' := Next(e, s, step).value;
    ReachableInv(e, s);
    NextInv(e, s, step);
  }

  /** Once both files are durable they are there in every later state. */
  lemma {:induction false} DurableForever(e: Primitives, s: State, steps: seq<Step>)
    requires Inv(e, s) && Run(e, s, steps).Some? && s.disk.nsDur > 0 && s.disk.keyDur > 0
    ensures var d := Run(e, s, steps).value.disk;
            d.nsDur > 0 && d.keyDur > 0 && d.nsVers != [] && d.keyVers != []
    decreases |steps|
  {
    if steps != [] {
      var n := |steps| - 1;
      DurableForever(e, s, steps[..n]);
      var m := Run(e, s, steps[..n]).value;
      RunInv(e, s, steps[..n]);
      NextInv(e, m, steps[n]);
      DurableStep(e, m, steps[n]);
    }
  }

  lemma DurableStep(e: Primitives, s: State, step: Step)
    requires Inv(e, s) && Next(e, s, step).Some? && s.disk.nsDur > 0 && s.disk.keyDur > 0
    ensures Next(e, s, step).value.disk.nsDur > 0 && Next(e, s, step).value.disk.keyDur > 0
  {
    if !step.PowerLoss? {
      if step.Advance? && s.procs[step.pid].pc.Synced? {
        PublishHistory(e, s, step.pid, step.draw);
      } else {
        QuietHistory(e, s, step);
      }
    }
  }

  /** Every call that changed the keys, and every call of Init that wrote the key file itself, leaves
      both files durable when it goes on to report success. */
  lemma WritersAreDurable(e: Primitives, s: State, pid: nat, draw: Draw)
    requires Reachable(e, s) && Next(e, s, Advance(pid, draw)).Some?
    requires s.procs[pid].pc.Renamed? && s.procs[pid].pc.w.file == KeysFile
    ensures var d := Next(e, s, Advance(pid, draw)).value.disk; d.nsDur > 0 && d.keyDur > 0
  {
    ReachableInv(e, s);
    assert ProcOk(e, s.name, s.disk, s.acks, pid, s.procs[pid]);
  }

  // ---- Lock-free reads ----

  predicate NoPowerLoss(steps: seq<Step>) {
    forall i :: 0 <= i < |steps| ==> !steps[i].PowerLoss?
  }

  predicate Undisturbed(pid: nat, steps: seq<Step>) {
    forall i :: 0 <= i < |steps| ==> !steps[i].PowerLoss? && steps[i] != Crash(pid)
  }

  lemma {:induction false} HistoryGrows(e: Primitives, s: State, steps: seq<Step>)
    requires Inv(e, s) && Run(e, s, steps).Some? && NoPowerLoss(steps)
    ensures var h, h' := Hist(s.disk), Hist(Run(e, s, steps).value.disk); |h| <= |h'| && h'[..|h|] == h
    decreases |steps|
  {
    if steps != [] {
      var n := |steps| - 1;
      HistoryGrows(e, s, steps[..n]);
      RunInv(e, s, steps[..n]);
      StepHistory(e, Run(e, s, steps[..n]).value, steps[n]);
    }
  }

  /** A reader that has opened version at stays with it. */
  ghost predicate Reading(s: State, pid: nat, op: Op, at: nat) {
    pid in s.procs && s.procs[pid].op == op &&
    match s.procs[pid].pc
    case Opened(_, at') => at' == at
    case Done(AuthDone(at', _)) => at' == at
    case Done(Err(_)) => true
    case _ => false
  }

  lemma {:induction false} ReaderStays(e: Primitives, s: State, pid: nat, op: Op, at: nat, steps: seq<Step>)
    requires Run(e, s, steps).Some? && Undisturbed(pid, steps) && Reading(s, pid, op, at)
    ensures Reading(Run(e, s, steps).value, pid, op, at)
    decreases |steps|
  {
    if steps != [] {
      var n := |steps| - 1;
      ReaderStays(e, s, pid, op, at, steps[..n]);
      ReaderStep(e, Run(e, s, steps[..n]).value, pid, op, at, steps[n]);
    }
  }

  lemma ReaderStep(e: Primitives, s: State, pid: nat, op: Op, at: nat, step: Step)
    requires Next(e, s, step).Some? && !step.PowerLoss? && step != Crash(pid) && Reading(s, pid, op, at)
    ensures Reading(Next(e, s, step).value, pid, op, at)
  {
  }

  /** Authenticate takes effect at the moment it opens the key file: whatever happens between the open
      and the answer, the answer is the verdict of the version that was current at the open. */
  lemma AuthenticateIsAtomic(e: Primitives, s: State, pid: nat, draw: Draw, steps: seq<Step>)
    requires Reachable(e, s) && Next(e, s, Advance(pid, draw)).Some?
    requires s.procs[pid].op.Auth? && s.procs[pid].pc == Checked && s.disk.keyVers != []
    requires Undisturbed(pid, steps)
    requires Run(e, Next(e, s, Advance(pid, draw)).value, steps).Some?
    ensures var s' := Run(e, Next(e, s, Advance(pid, draw)).value, steps).value;
            var token := s.procs[pid].op.token;
            pid in s'.procs && StoreKeyId(token).Some? &&
            (s'.procs[pid].pc.Done? && s'.procs[pid].pc.out.AuthDone? ==>
              s'.procs[pid].pc.out.verdict == Verdict(e, Current(s.disk), StoreKeyId(token).value, token))
            && (s'.procs[pid].pc.Done? && s'.procs[pid].pc.out.Err? ==> s'.procs[pid].pc.out.error != Corrupt)
  {
    ReachableInv(e, s);
    assert ProcOk(e, s.name, s.disk, s.acks, pid, s.procs[pid]);
    var at := |s.disk.keyVers| - 1;
    var s1 := Next(e, s, Advance(pid, draw)).value;
    NextInv(e, s, Advance(pid, draw));
    QuietHistory(e, s, Advance(pid, draw));
    var s' := Run(e, s1, steps).value;
    RunInv(e, s1, steps);
    HistoryGrows(e, s1, steps);
    ReaderStays(e, s1, pid, s.procs[pid].op, at, steps);
    assert ProcOk(e, s'.name, s'.disk, s'.acks, pid, s'.procs[pid]);
    assert Hist(s'.disk)[..|Hist(s1.disk)|][at] == Hist(s1.disk)[at] == Current(s.disk);
  }

  /** A reader that opened the key file after a revocation rejects every token with that ID, until the
      ID is issued again. */
  lemma RevocationIsImmediate(e: Primitives, s: State, pid: nat, r: nat)
    requires Reachable(e, s) && pid in s.procs && s.procs[pid].op.Auth?
    requires s.procs[pid].pc.Done? && s.procs[pid].pc.out.AuthDone? && r <= s.procs[pid].pc.out.at
    requires StoreKeyId(s.procs[pid].op.token).Some?
    requires var id := StoreKeyId(s.procs[pid].op.token).value;
             RevokedAt(Hist(s.disk), r, id) &&
             forall i, k :: r < i <= s.procs[pid].pc.out.at && IssuedAt(e, Hist(s.disk), i, k) ==> k.id != id
    ensures s.procs[pid].pc.out.verdict == None
  {
    ReachableInv(e, s);
    var out := s.procs[pid].pc.out;
    assert ProcOk(e, s.name, s.disk, s.acks, pid, s.procs[pid]);
    var token := s.procs[pid].op.token;
    RejectedAfterRevocation(e, Hist(s.disk), r, out.at, StoreKeyId(token).value, token);
  }

  /** The ID was not in use in the version before at. */
  predicate FreshAt(h: seq<seq<Key>>, at: nat, id: string) {
    0 < at <= |h| ==> !HasId(h[at - 1], id)
  }

  /** With fresh IDs, a reader accepts a reported key exactly if it opened the file after the issue and
      before a revocation of the key. */
  lemma IssuedKeysAuthenticate(e: Primitives, s: State, a: nat, pid: nat)
    requires Reachable(e, s) && a < |s.acks| && s.acks[a].IssueOk?
    requires pid in s.procs && s.procs[pid].op == Auth(s.acks[a].token)
    requires s.procs[pid].pc.Done? && s.procs[pid].pc.out.AuthDone? && s.acks[a].at <= s.procs[pid].pc.out.at
    requires FreshAt(Hist(s.disk), s.acks[a].at, s.acks[a].key.id)
    requires forall j, k :: s.acks[a].at < j <= s.procs[pid].pc.out.at && IssuedAt(e, Hist(s.disk), j, k) ==> k.id != s.acks[a].key.id
    ensures s.procs[pid].pc.out.verdict ==
            if exists r :: s.acks[a].at < r <= s.procs[pid].pc.out.at && RevokedAt(Hist(s.disk), r, s.acks[a].key.id)
            then None else Some(s.acks[a].key.(digest := ""))
  {
    ReachableInv(e, s);
    var ack, out := s.acks[a], s.procs[pid].pc.out;
    assert InHistory(e, Hist(s.disk), ack);
    assert ProcOk(e, s.name, s.disk, s.acks, pid, s.procs[pid]);
    AcceptedUntilRevoked(e, Hist(s.disk), ack.at, out.at, ack.key, ack.token);
  }

  // ---- Labels ----

  /** In every reachable state every version has trimmed, valid labels that differ up to case. */
  lemma LabelsUnique(e: Primitives, s: State, i: nat)
    requires Reachable(e, s) && i < |s.disk.keyVers|
    ensures LabelsDistinct(e, Hist(s.disk)[i]) && LabelsValid(Hist(s.disk)[i])
    ensures forall k :: k in Hist(s.disk)[i] ==> 1 <= |k.keyLabel| && ByteLen(k.keyLabel) <= 120
  {
    ReachableInv(e, s);
    LabelsWellFormed(e, Hist(s.disk), i);
    forall k | k in Hist(s.disk)[i] ensures 1 <= |k.keyLabel| && ByteLen(k.keyLabel) <= 120 {
      ValidLabelMeaning(k.keyLabel);
    }
  }

  /** Of two reported issues under labels equal up to case, the first key was revoked in between. */
  lemma OneKeyPerLabel(e: Primitives, s: State, i: nat, j: nat)
    requires Reachable(e, s) && i < j < |s.acks| && s.acks[i].IssueOk? && s.acks[j].IssueOk?
    requires e.fold(s.acks[i].key.keyLabel) == e.fold(s.acks[j].key.keyLabel)
    ensures exists r :: s.acks[i].at < r < s.acks[j].at && RevokedAt(Hist(s.disk), r, s.acks[i].key.id)
  {
    ReachableInv(e, s);
    assert InHistory(e, Hist(s.disk), s.acks[i]) && InHistory(e, Hist(s.disk), s.acks[j]);
    SameLabelNeedsRevocation(e, Hist(s.disk), s.acks[i].at, s.acks[j].at, s.acks[i].key, s.acks[j].key);
  }

  // ---- Namespaces ----

  /** Successful calls of Init agree on the namespace, creation time included, unless a power loss took
      away a metadata file that had not been made durable. */
  lemma InitsAgree(e: Primitives, s: State, i: nat, j: nat)
    requires Reachable(e, s) && i < |s.inits| && j < |s.inits| && s.inits[i].1 == s.inits[j].1
    ensures s.inits[i].0 == s.inits[j].0
  {
    ReachableInv(e, s);
  }

  lemma EpochEnds(e: Primitives, s: State, step: Step)
    requires Reachable(e, s) && Next(e, s, step).Some?
    ensures Next(e, s, step).value.epoch == s.epoch ||
            (step.PowerLoss? && s.disk.nsVers != [] && s.disk.nsDur == 0 && Next(e, s, step).value.disk.nsVers == [])
  {
    ReachableInv(e, s);
  }
}
