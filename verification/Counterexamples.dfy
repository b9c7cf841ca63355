/** Runs that show where the store's promises end. Each is one call after the other, with crashes between. */
module Counterexamples {
  import opened Text
  import opened Token
  import opened KeyList
  import opened History
  import opened Protocol
  import opened Invariant
  import opened Preservation
  import opened Guarantees
  import opened Durability

  // ---- One call on its own ----

  function Alone(s: State, d: Disk, pid: nat, op: Op, pc: Pc): State {
    s.(disk := d, procs := map[pid := Proc(op, pc)])
  }

  lemma Spawns(e: Primitives, s: State, pid: nat, op: Op)
    requires Reachable(e, s) && s.procs == map[]
    ensures Reachable(e, Alone(s, s.disk, pid, op, Start))
  {
    ReachableNext(e, s, Spawn(pid, op));
    assert s.procs[pid := Proc(op, Start)] == map[pid := Proc(op, Start)];
  }

  lemma Moves(e: Primitives, s: State, d: Disk, pid: nat, op: Op, pc: Pc, draw: Draw, d': Disk, pc': Pc)
    requires Reachable(e, Alone(s, d, pid, op, pc)) && ValidDraw(draw)
    requires Act(e, s.name, d, pid, Proc(op, pc), draw) == Some((d', pc'))
    ensures Reachable(e, Alone(Acknowledge(s, Proc(op, pc)), d', pid, op, pc'))
  {
    var t := Alone(s, d, pid, op, pc);
    ReachableNext(e, t, Advance(pid, draw));
    assert t.procs[pid := Proc(op, pc')] == map[pid := Proc(op, pc')];
    assert Next(e, t, Advance(pid, draw)).value == Alone(Acknowledge(s, Proc(op, pc)), d', pid, op, pc');
  }

  /** The process dies, or exits after its call has returned. */
  lemma Exits(e: Primitives, s: State, d: Disk, pid: nat, op: Op, pc: Pc)
    requires Reachable(e, Alone(s, d, pid, op, pc))
    ensures var d' := if Holds(Proc(op, pc)) then SetLock(d, op, None) else d;
            Reachable(e, s.(disk := d', procs := map[]))
  {
    var t := Alone(s, d, pid, op, pc);
    ReachableNext(e, t, Crash(pid));
    assert t.procs - {pid} == map[];
  }

  /** The directory after an atomic write has renamed its file into place. */
  function Wrote(d: Disk, pid: nat, w: Write): Disk {
    Publish(WithTemporary(d, Inode(w.doc, true, pid, false)), w.file, |d.inodes|)
  }

  lemma Writes(e: Primitives, s: State, d: Disk, pid: nat, op: Op, w: Write, draw: Draw)
    requires Reachable(e, Alone(s, d, pid, op, Decided(w))) && ValidDraw(draw)
    ensures Reachable(e, Alone(s, Wrote(d, pid, w), pid, op, Renamed(w)))
  {
    var ino := |d.inodes|;
    WritesTemporary(e, s, d, pid, op, w, draw);
    var d2 := WithTemporary(d, Inode(w.doc, false, pid, false));
    var d3 := WithTemporary(d, Inode(w.doc, true, pid, false));
    assert SetInode(d2, ino, d2.inodes[ino].(synced := true)) == d3;
    Moves(e, s, d2, pid, op, Written(w, ino), draw, d3, Synced(w, ino));
    Moves(e, s, d3, pid, op, Synced(w, ino), draw, Wrote(d, pid, w), Renamed(w));
  }

  function WithTemporary(d: Disk, inode: Inode): Disk {
    d.(inodes := d.inodes + [inode])
  }

  lemma WritesTemporary(e: Primitives, s: State, d: Disk, pid: nat, op: Op, w: Write, draw: Draw)
    requires Reachable(e, Alone(s, d, pid, op, Decided(w))) && ValidDraw(draw)
    ensures Reachable(e, Alone(s, WithTemporary(d, Inode(w.doc, false, pid, false)), pid, op, Written(w, |d.inodes|)))
  {
    var ino := |d.inodes|;
    var d1 := WithTemporary(d, Inode(Torn, false, pid, false));
    var d2 := WithTemporary(d, Inode(w.doc, false, pid, false));
    assert SetInode(d1, ino, d1.inodes[ino].(content := w.doc, synced := false)) == d2;
    Moves(e, s, d, pid, op, Decided(w), draw, d1, Created(w, ino));
    Moves(e, s, d1, pid, op, Created(w, ino), draw, d2, Written(w, ino));
  }

  // ---- A namespace that was reported and is lost ----

  const DRAW := Draw(seq(6, i => 0), seq(32, i => 0), 0)

  function First(name: string): Namespace {
    Namespace(name, 1)
  }

  function NsWrite(name: string): Write {
    Write(NsFile, Meta(First(name)), InitOk(First(name)))
  }

  function KeysWrite(name: string): Write {
    Write(KeysFile, Keys(KeyFile(KEY_FILE_VERSION, [])), InitOk(First(name)))
  }

  /** The directory after one call renamed the metadata file and died, and after another did so with the key file. */
  function AfterNs(name: string): Disk {
    Disk([Inode(Meta(First(name)), true, 0, true)], [0], 0, [], 0, true, false, None, None)
  }

  function AfterKeys(name: string): Disk {
    Disk([Inode(Meta(First(name)), true, 0, true), Inode(Keys(KeyFile(KEY_FILE_VERSION, [])), true, 1, true)],
         [0], 0, [1], 0, true, false, None, None)
  }

  lemma FirstCallDecides(e: Primitives, name: string, s: State, d: Disk)
    requires s == Fresh(name) && d == s.disk.(dir := true, nsLock := Some(0))
    ensures Reachable(e, Alone(s, d, 0, Init(1), Decided(NsWrite(name))))
  {
    var op := Init(1);
    assert Run(e, Fresh(s.name), []) == Some(s);
    Spawns(e, s, 0, op);
    Moves(e, s, s.disk, 0, op, Start, DRAW, s.disk.(dir := true), Checked);
    Moves(e, s, s.disk.(dir := true), 0, op, Checked, DRAW, d, Locked);
    Moves(e, s, d, 0, op, Locked, DRAW, d, Decided(NsWrite(name)));
  }

  lemma FirstCallDies(e: Primitives, name: string)
    ensures Reachable(e, Fresh(name).(disk := AfterNs(name)))
  {
    var s, op, w := Fresh(name), Init(1), NsWrite(name);
    var d := s.disk.(dir := true, nsLock := Some(0));
    FirstCallDecides(e, name, s, d);
    Writes(e, s, d, 0, op, w, DRAW);
    assert Wrote(d, 0, w) == AfterNs(name).(nsLock := Some(0));
    Exits(e, s, Wrote(d, 0, w), 0, op, Renamed(w));
  }

  lemma SecondCallDecides(e: Primitives, name: string, s: State, d: Disk)
    requires s == Fresh(name).(disk := AfterNs(name)) && d == AfterNs(name).(nsLock := Some(1))
    ensures Reachable(e, Alone(s, d, 1, Init(2), Decided(KeysWrite(name))))
  {
    FirstCallDies(e, name);
    var op := Init(2);
    Spawns(e, s, 1, op);
    Moves(e, s, s.disk, 1, op, Start, DRAW, s.disk, Checked);
    Moves(e, s, s.disk, 1, op, Checked, DRAW, d, Locked);
    Moves(e, s, d, 1, op, Locked, DRAW, d, Settled(First(name)));
    Moves(e, s, d, 1, op, Settled(First(name)), DRAW, d, Decided(KeysWrite(name)));
  }

  lemma SecondCallDies(e: Primitives, name: string)
    ensures Reachable(e, Fresh(name).(disk := AfterKeys(name)))
  {
    var s, d, op, w := Fresh(name).(disk := AfterNs(name)), AfterNs(name).(nsLock := Some(1)), Init(2), KeysWrite(name);
    SecondCallDecides(e, name, s, d);
    Writes(e, s, d, 1, op, w, DRAW);
    assert Wrote(d, 1, w) == AfterKeys(name).(nsLock := Some(1));
    Exits(e, s, Wrote(d, 1, w), 1, op, Renamed(w));
  }

  /** A third call has found both files and reported success. */
  function Reported(name: string): State {
    Alone(Fresh(name), AfterKeys(name), 2, Init(3), Done(InitOk(First(name)))).(inits := [(First(name), 0)])
  }

  lemma ThirdCallSucceeds(e: Primitives, name: string)
    ensures Reachable(e, Reported(name))
  {
    SecondCallDies(e, name);
    var s, d, op, ns := Fresh(name).(disk := AfterKeys(name)), AfterKeys(name), Init(3), First(name);
    var d' := d.(nsLock := Some(2));
    Spawns(e, s, 2, op);
    Moves(e, s, d, 2, op, Start, DRAW, d, Checked);
    Moves(e, s, d, 2, op, Checked, DRAW, d', Locked);
    Moves(e, s, d', 2, op, Locked, DRAW, d', Settled(ns));
    Moves(e, s, d', 2, op, Settled(ns), DRAW, d', Unlocking(InitOk(ns)));
    Moves(e, s, d', 2, op, Unlocking(InitOk(ns)), DRAW, d, Done(InitOk(ns)));
    assert [] + [(ns, 0)] == [(ns, 0)];
    assert Alone(Acknowledge(s, Proc(op, Unlocking(InitOk(ns)))), d, 2, op, Done(InitOk(ns))) == Reported(name);
  }

  /** A power loss can take away a namespace whose initialisation was reported as a success. */
  lemma ReportedNamespaceCanVanish(e: Primitives, name: string) returns (s: State, step: Step)
    ensures Reachable(e, s) && s.inits != [] && step.PowerLoss? && Next(e, s, step).Some?
    ensures Next(e, s, step).value.disk.nsVers == [] && Next(e, s, step).value.disk.keyVers == []
  {
    ThirdCallSucceeds(e, name);
    s, step := Reported(name), PowerLoss(0, 0, false, {});
  }

  /** So two calls of Init for one namespace can report success with different creation times. */
  lemma CreationTimesCanDiffer(e: Primitives, name: string) returns (s: State, steps: seq<Step>)
    ensures Reachable(e, s) && |s.inits| == 1 && Run(e, s, steps).Some?
    ensures var inits := Run(e, s, steps).value.inits;
            |inits| == 2 && inits[1].0.name == s.inits[0].0.name && inits[1].0.createdAt != s.inits[0].0.createdAt
  {
    ThirdCallSucceeds(e, name);
    s := Reported(name);
    steps := LoseAndReinit(e, s, 4);
  }

  // ---- Errors that are none ----

  /** A change that was reported as failed may have been made all the same: its rename happened, and only the
      directory sync after it failed. An issued key is in the key file, and a revoked ID is not. */
  lemma FailureMayHaveCommitted(e: Primitives, s: State, pid: nat)
    requires Reachable(e, s) && pid in s.procs && s.procs[pid].pc.Renamed?
    ensures var s' := Next(e, s, Fail(pid));
            s'.Some? && Reachable(e, s'.value) && s'.value.procs[pid].pc == Unlocking(Err(Io))
            && s'.value.disk == s.disk
    ensures s.procs[pid].op.Issue? ==>
              s.procs[pid].pc.w.res.IssueOk? && Current(s.disk) != [] &&
              Current(s.disk)[|Current(s.disk)| - 1] == s.procs[pid].pc.w.res.key
    ensures s.procs[pid].op.Revoke? ==>
              RevokedAt(Hist(s.disk), |Hist(s.disk)| - 1, s.procs[pid].op.id) && !HasId(Current(s.disk), s.procs[pid].op.id)
  {
    ReachableInv(e, s);
    ReachableNext(e, s, Fail(pid));
    var p := s.procs[pid];
    assert ProcOk(e, s.name, s.disk, s.acks, pid, p);
    if p.op.Issue? {
      LandedKey(e, s.disk, s.acks, p.op, p.pc.w.res);
    } else if p.op.Revoke? {
      LandedRevocation(e, s.disk, s.acks, p.op, p.pc.w.res);
    }
  }

  lemma LandedKey(e: Primitives, d: Disk, acks: seq<Outcome>, op: Op, out: Outcome)
    requires op.Issue? && Latest(e, d, acks, op, out)
    ensures out.IssueOk? && Current(d) != [] && Current(d)[|Current(d)| - 1] == out.key
  {
    assert Hist(d)[out.at] == Current(d);
  }

  lemma LandedRevocation(e: Primitives, d: Disk, acks: seq<Outcome>, op: Op, out: Outcome)
    requires op.Revoke? && Latest(e, d, acks, op, out)
    ensures RevokedAt(Hist(d), |Hist(d)| - 1, op.id) && !HasId(Current(d), op.id)
  {
    assert Hist(d)[out.at] == Current(d);
    WithoutMembers(Hist(d)[out.at - 1], op.id);
  }

  // ---- An ID that is drawn twice ----

  /** The disk after a call of IssueKey that ran on its own. */
  function AfterIssue(d: Disk, pid: nat, k: Key, token: string): Disk {
    SyncDir(Wrote(d, pid, IssueWrite(d, k, token)))
  }

  function IssueWrite(d: Disk, k: Key, token: string): Write {
    Write(KeysFile, Keys(KeyFile(KEY_FILE_VERSION, Current(d) + [k])), IssueOk(|d.keyVers|, k, token))
  }

  /** A call of IssueKey that runs on its own succeeds, and its process exits. */
  lemma Issues(e: Primitives, s: State, pid: nat, raw: string, draw: Draw)
    requires Reachable(e, s) && s.procs == map[] && s.disk.nsVers != [] && s.disk.keyVers != [] && ValidDraw(draw)
    requires ValidLabel(TrimSpace(raw)) && LabelFree(e, Current(s.disk), TrimSpace(raw))
    ensures var k, token := Record(e, draw.id, draw.secret, TrimSpace(raw), draw.now), Print(draw.id, draw.secret);
            Reachable(e, s.(disk := AfterIssue(s.disk, pid, k, token), acks := s.acks + [IssueOk(|s.disk.keyVers|, k, token)]))
  {
    ReachableInv(e, s);
    var d, op := s.disk, Issue(raw);
    var k, token := Record(e, draw.id, draw.secret, TrimSpace(raw), draw.now), Print(draw.id, draw.secret);
    var d', w := d.(keyLock := Some(pid)), IssueWrite(d, k, token);
    Spawns(e, s, pid, op);
    Deciding(e, s.name, d, pid, raw, draw);
    Moves(e, s, d, pid, op, Start, draw, d, Checked);
    Moves(e, s, d, pid, op, Checked, draw, d', Locked);
    Moves(e, s, d', pid, op, Locked, draw, d', Decided(w));
    IssueFinishes(e, s, d', pid, op, w, draw);
  }

  lemma Deciding(e: Primitives, name: string, d: Disk, pid: nat, raw: string, draw: Draw)
    requires KeyFilesOk(d) && d.nsVers != [] && d.keyVers != [] && d.keyLock == None
    requires ValidLabel(TrimSpace(raw)) && LabelFree(e, Current(d), TrimSpace(raw))
    ensures var op, d' := Issue(raw), d.(keyLock := Some(pid));
            var k := Record(e, draw.id, draw.secret, TrimSpace(raw), draw.now);
            && Act(e, name, d, pid, Proc(op, Start), draw) == Some((d, Checked))
            && Act(e, name, d, pid, Proc(op, Checked), draw) == Some((d', Locked))
            && Act(e, name, d', pid, Proc(op, Locked), draw) ==
               Some((d', Decided(IssueWrite(d, k, Print(draw.id, draw.secret)))))
  {
    assert ReadableKeys(KeysContent(d));
    assert Current(d.(keyLock := Some(pid))) == Current(d);
  }

  lemma IssueFinishes(e: Primitives, s: State, d: Disk, pid: nat, op: Op, w: Write, draw: Draw)
    requires Reachable(e, Alone(s, d, pid, op, Decided(w))) && ValidDraw(draw) && s.procs == map[]
    requires op.Issue? && w.file == KeysFile && w.res.IssueOk? && d.keyLock == Some(pid)
    ensures Reachable(e, s.(disk := SyncDir(Wrote(d.(keyLock := None), pid, w)), acks := s.acks + [w.res]))
  {
    Writes(e, s, d, pid, op, w, draw);
    var d1 := SyncDir(Wrote(d, pid, w));
    var d2 := SyncDir(Wrote(d.(keyLock := None), pid, w));
    assert SetLock(d1, op, None) == d2;
    Moves(e, s, Wrote(d, pid, w), pid, op, Renamed(w), draw, d1, Unlocking(w.res));
    Moves(e, s, d1, pid, op, Unlocking(w.res), draw, d2, Done(w.res));
    Exits(e, Acknowledge(s, Proc(op, Unlocking(w.res))), d2, pid, op, Done(w.res));
  }

  lemma IssuedKeys(d: Disk, pid: nat, k: Key, token: string)
    ensures var d' := AfterIssue(d, pid, k, token);
            && Current(d') == Current(d) + [k] && d'.keyVers != [] && d'.nsVers == d.nsVers
            && |d'.keyVers| == |d.keyVers| + 1
  {
  }

  /** A call of Authenticate that runs on its own answers for the current version. */
  lemma Authenticates(e: Primitives, s: State, pid: nat, token: string)
    requires Reachable(e, s) && s.procs == map[] && s.disk.nsVers != [] && s.disk.keyVers != []
    requires StoreKeyId(token).Some?
    ensures var out := AuthDone(|s.disk.keyVers| - 1, Verdict(e, Current(s.disk), StoreKeyId(token).value, token));
            Reachable(e, Alone(s, s.disk, pid, Auth(token), Done(out)))
  {
    ReachableInv(e, s);
    var d, op, at := s.disk, Auth(token), |s.disk.keyVers| - 1;
    var reading := Opened(d.keyVers[at], at);
    var out := AuthDone(at, Verdict(e, Current(d), StoreKeyId(token).value, token));
    Spawns(e, s, pid, op);
    Opening(e, s.name, d, pid, token);
    Moves(e, s, d, pid, op, Start, DRAW, d, Checked);
    Moves(e, s, d, pid, op, Checked, DRAW, d, reading);
    Moves(e, s, d, pid, op, reading, DRAW, d, Done(out));
  }

  lemma Opening(e: Primitives, name: string, d: Disk, pid: nat, token: string)
    requires KeyFilesOk(d) && d.nsVers != [] && d.keyVers != [] && StoreKeyId(token).Some?
    ensures var op, at := Auth(token), |d.keyVers| - 1;
            var reading := Opened(d.keyVers[at], at);
            && Act(e, name, d, pid, Proc(op, Start), DRAW) == Some((d, Checked))
            && Act(e, name, d, pid, Proc(op, Checked), DRAW) == Some((d, reading))
            && Act(e, name, d, pid, Proc(op, reading), DRAW) ==
               Some((d, Done(AuthDone(at, Verdict(e, Current(d), StoreKeyId(token).value, token)))))
  {
    assert ReadableKeys(KeysContent(d));
  }

  predicate Quiet(e: Primitives, s: State, raw: string) {
    && s.procs == map[] && s.disk.nsVers != [] && s.disk.keyVers != []
    && ValidLabel(TrimSpace(raw)) && LabelFree(e, Current(s.disk), TrimSpace(raw))
  }

  /** From every state in which nothing runs: IssueKey reports success for a free label, and the token it
      printed is then accepted if and only if the ID it drew was not in use, or the first key with that ID
      has the same digest. */
  lemma FirstUse(e: Primitives, s: State, raw: string, draw: Draw) returns (t: State)
    requires Reachable(e, s) && Quiet(e, s, raw) && ValidDraw(draw)
    ensures Reachable(e, t) && |t.acks| == |s.acks| + 1
    ensures var out, token := t.acks[|s.acks|], Print(draw.id, draw.secret);
            && out.IssueOk? && out.token == token
            && 0 in t.procs && t.procs[0].op == Auth(token) && t.procs[0].pc.Done? && t.procs[0].pc.out.AuthDone?
            && (t.procs[0].pc.out.verdict.Some? <==>
                  match Lookup(Current(s.disk), KeyName(draw.id))
                  case None => true
                  case Some(first) => HexDecode(first.digest) == Some(e.sha256(token)))
  {
    var k, token := Record(e, draw.id, draw.secret, TrimSpace(raw), draw.now), Print(draw.id, draw.secret);
    Issues(e, s, 0, raw, draw);
    IssuedKeys(s.disk, 0, k, token);
    var m := s.(disk := AfterIssue(s.disk, 0, k, token), acks := s.acks + [IssueOk(|s.disk.keyVers|, k, token)]);
    RecordMatches(e, draw.id, draw.secret, TrimSpace(raw), draw.now);
    Authenticates(e, m, 0, token);
    AcceptedAfterIssue(e, Current(s.disk), k, token);
    t := Alone(m, m.disk, 0, Auth(token),
               Done(AuthDone(|m.disk.keyVers| - 1, Verdict(e, Current(m.disk), StoreKeyId(token).value, token))));
  }

  /** So a token that IssueKey reported as issued can be rejected from the start: its ID was drawn before. */
  lemma ReportedTokenCanBeRejected(e: Primitives, name: string, raw: string, raw': string, draw: Draw, draw': Draw)
    returns (t: State)
    requires ValidLabel(TrimSpace(raw)) && ValidLabel(TrimSpace(raw')) && e.fold(TrimSpace(raw)) != e.fold(TrimSpace(raw'))
    requires ValidDraw(draw) && ValidDraw(draw') && draw.id == draw'.id
    requires e.sha256(Print(draw.id, draw.secret)) != e.sha256(Print(draw'.id, draw'.secret))
    ensures Reachable(e, t) && |t.acks| == 2 && t.acks[1].IssueOk? && 0 in t.procs
    ensures t.procs[0].op == Auth(t.acks[1].token) && t.procs[0].pc.Done? && t.procs[0].pc.out.AuthDone?
    ensures t.procs[0].pc.out.verdict == None
  {
    SecondCallDies(e, name);
    var s := Fresh(name).(disk := AfterKeys(name));
    var k, token := Record(e, draw.id, draw.secret, TrimSpace(raw), draw.now), Print(draw.id, draw.secret);
    Issues(e, s, 0, raw, draw);
    IssuedKeys(s.disk, 0, k, token);
    var m := s.(disk := AfterIssue(s.disk, 0, k, token), acks := [] + [IssueOk(|s.disk.keyVers|, k, token)]);
    HexRoundTrip(e.sha256(token));
    assert Current(m.disk) == [k];
    t := FirstUse(e, m, raw', draw');
  }
}
