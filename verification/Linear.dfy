/** The concurrent protocol against the store's calls one at a time: every call takes effect at one step, with
    the effect and the answer that the single call has on the files of that moment. */
module Linear {
  import opened Text
  import opened Token
  import opened KeyList
  import opened Paths
  import opened Protocol
  import opened Invariant
  import opened Preservation
  import opened Guarantees
  import opened Returns
  import opened Store

  // ---- The files that a directory shows ----

  /** What a caller finds under the names of one namespace. */
  function FilesOf(d: Disk, root: string, name: string): Files
    requires root != "" && Accepted(name)
  {
    var metadata: Files := if d.nsVers == [] then map[] else map[NsPath(root, name) := NsContent(d)];
    if d.keyVers == [] then metadata else metadata[KeysPath(root, name) := KeysContent(d)]
  }

  predicate At(root: string, name: string) {
    Rooted(root) && Clean(root) == root && Accepted(name)
  }

  lemma FilesAt(d: Disk, root: string, name: string)
    requires At(root, name)
    ensures var f := FilesOf(d, root, name);
            && (NsPath(root, name) in f <==> d.nsVers != []) && (KeysPath(root, name) in f <==> d.keyVers != [])
            && (d.nsVers != [] ==> f[NsPath(root, name)] == NsContent(d))
            && (d.keyVers != [] ==> f[KeysPath(root, name)] == KeysContent(d))
  {
    PathsDiffer(root, name);
  }

  lemma ReadsAs(d: Disk, root: string, name: string)
    requires At(root, name) && KeyFilesOk(d)
    ensures var f := FilesOf(d, root, name);
            && ReadKeys(f, KeysPath(root, name)) == (if d.keyVers == [] then Refused(NotExist) else Ok(Current(d)))
            && Existing(f, root, name) == (if d.nsVers == [] then Refused(NamespaceMissing) else Ok(DirOf(root, name)))
            && KeysIn(f, root, name) == Current(d)
  {
    FilesAt(d, root, name);
    if d.keyVers != [] {
      assert ReadableKeys(KeysContent(d));
    }
  }

  lemma SameFilesShown(name: string, d: Disk, d': Disk, pid: nat, root: string)
    requires NsFilesOk(name, d) && KeyFilesOk(d) && SameFiles(d, d', pid) && Accepted(name) && root != ""
    ensures FilesOf(d', root, name) == FilesOf(d, root, name)
  {
    SameFilesNs(name, d, d', pid);
    if d.keyVers != [] {
      assert PublishedFile(d, d.keyVers[|d.keyVers| - 1]);
    }
  }

  lemma PublishedShown(d: Disk, w: Write, ino: nat, root: string, name: string)
    requires At(root, name) && ino < |d.inodes| && d.inodes[ino].content == w.doc
    ensures FilesOf(Publish(d, w.file, ino), root, name) ==
            FilesOf(d, root, name)[(if w.file == NsFile then NsPath(root, name) else KeysPath(root, name)) := w.doc]
  {
    PathsDiffer(root, name);
    ContentsPublished(d, w.file, ino);
    var f, d' := FilesOf(d, root, name), Publish(d, w.file, ino);
    FilesAt(d, root, name);
    FilesAt(d', root, name);
  }

  lemma ContentsPublished(d: Disk, file: File, ino: nat)
    requires ino < |d.inodes|
    ensures var d', doc := Publish(d, file, ino), d.inodes[ino].content;
            && (if file == NsFile then d'.nsVers != [] && NsContent(d') == doc
                else d'.nsVers == d.nsVers && (d.nsVers != [] ==> NsContent(d') == NsContent(d)))
            && (if file == KeysFile then d'.keyVers != [] && KeysContent(d') == doc
                else d'.keyVers == d.keyVers && (d.keyVers != [] ==> KeysContent(d') == KeysContent(d)))
  {
    PublishContents(d, file, ino);
  }

  // ---- Effects ----

  /** The operation, run on its own on the files f, answers out and leaves f'. */
  ghost predicate TakesEffect(e: Primitives, root: string, name: string, f: Files, f': Files, op: Op, out: Outcome)
    requires root != "" && Accepted(name)
  {
    match op
    case Issue(raw) =>
      out.IssueOk? && f' == WithKey(f, root, name, out.key)
      && exists draw :: ValidDraw(draw) && IssueAnswer(e, f, root, name, raw, draw) == Ok(Issued(out.key, out.token))
    case Revoke(id) =>
      out.RevokeOk? && out.id == id && f' == WithoutKey(f, root, name, id) && RevokeAnswer(f, root, name, id) == Ok(())
    case Init(now) =>
      out.InitOk? && InitAnswer(f, root, name, InitEnv(true, now, NoFault, NoFault)) == Ok(out.ns)
      && (|| f' == InitLeaves(f, root, name, InitEnv(true, now, NoFault, BeforeRename))
          || f' == InitLeaves(f, root, name, InitEnv(true, now, NoFault, NoFault)))
    case Auth(_) => false
  }

  lemma IssueTakesEffect(e: Primitives, name: string, d: Disk, raw: string, w: Write, ino: nat, root: string)
    requires At(root, name) && KeyFilesOk(d) && d.nsVers != [] && Planned(e, name, d, Issue(raw), w)
    requires ino < |d.inodes| && d.inodes[ino].content == w.doc
    ensures TakesEffect(e, root, name, FilesOf(d, root, name), FilesOf(Publish(d, w.file, ino), root, name), Issue(raw), w.res)
  {
    ReadsAs(d, root, name);
    PublishedShown(d, w, ino, root, name);
    var draw: Draw :| ValidDraw(draw) && w.res.key == Record(e, draw.id, draw.secret, w.res.key.keyLabel, draw.now)
                      && w.res.token == Print(draw.id, draw.secret);
    assert IssueAnswer(e, FilesOf(d, root, name), root, name, raw, draw) == Ok(Issued(w.res.key, w.res.token));
  }

  lemma RevokeTakesEffect(e: Primitives, name: string, d: Disk, id: string, w: Write, ino: nat, root: string)
    requires At(root, name) && KeyFilesOk(d) && d.nsVers != [] && Planned(e, name, d, Revoke(id), w)
    requires ino < |d.inodes| && d.inodes[ino].content == w.doc
    ensures TakesEffect(e, root, name, FilesOf(d, root, name), FilesOf(Publish(d, w.file, ino), root, name), Revoke(id), w.res)
  {
    ReadsAs(d, root, name);
    PublishedShown(d, w, ino, root, name);
  }

  lemma InitTakesEffect(e: Primitives, name: string, d: Disk, now: int, w: Write, ino: nat, root: string)
    requires At(root, name) && Planned(e, name, d, Init(now), w)
    requires ino < |d.inodes| && d.inodes[ino].content == w.doc
    ensures TakesEffect(e, root, name, FilesOf(d, root, name), FilesOf(Publish(d, w.file, ino), root, name), Init(now), w.res)
  {
    FilesAt(d, root, name);
    PathsDiffer(root, name);
    PublishedShown(d, w, ino, root, name);
  }

  /** Every step but a power loss leaves the files as they are, unless it is a rename: that step has the effect
      of the call, run on its own on the files of that moment, with the answer it will give. Init has two
      renames; each has the effect of a call of Init, the first that of one that gets no further. */
  lemma StepsAreCalls(e: Primitives, s: State, step: Step, root: string)
    requires Reachable(e, s) && Next(e, s, step).Some? && !step.PowerLoss? && At(root, s.name)
    ensures var f, f' := FilesOf(s.disk, root, s.name), FilesOf(Next(e, s, step).value.disk, root, s.name);
            if step.Advance? && s.procs[step.pid].pc.Synced?
            then TakesEffect(e, root, s.name, f, f', s.procs[step.pid].op, s.procs[step.pid].pc.w.res)
            else f' == f
  {
    ReachableInv(e, s);
    if step.Advance? && s.procs[step.pid].pc.Synced? {
      RenameIsCall(e, s, step.pid, step.draw, root);
    } else {
      QuietFiles(e, s, step);
      SameFilesShown(s.name, s.disk, Next(e, s, step).value.disk, step.pid, root);
    }
  }

  lemma RenameIsCall(e: Primitives, s: State, pid: nat, draw: Draw, root: string)
    requires Inv(e, s) && Next(e, s, Advance(pid, draw)).Some? && s.procs[pid].pc.Synced? && At(root, s.name)
    ensures TakesEffect(e, root, s.name, FilesOf(s.disk, root, s.name),
                        FilesOf(Next(e, s, Advance(pid, draw)).value.disk, root, s.name), s.procs[pid].op, s.procs[pid].pc.w.res)
  {
    var p := s.procs[pid];
    assert ProcOk(e, s.name, s.disk, s.acks, pid, p);
    NextMoves(e, s, pid, draw);
    match p.op
    case Init(now) => InitTakesEffect(e, s.name, s.disk, now, p.pc.w, p.pc.ino, root);
    case Issue(raw) => IssueTakesEffect(e, s.name, s.disk, raw, p.pc.w, p.pc.ino, root);
    case Revoke(id) => RevokeTakesEffect(e, s.name, s.disk, id, p.pc.w, p.pc.ino, root);
  }

  // ---- Answers without an effect ----

  /** The operation, run on its own on the files f, is refused with the error. */
  ghost predicate IsRefused(e: Primitives, root: string, name: string, f: Files, op: Op, error: Error)
    requires root != ""
  {
    match op
    case Issue(raw) => forall draw :: IssueAnswer(e, f, root, name, raw, draw) == Refused(error)
    case Revoke(id) => RevokeAnswer(f, root, name, id) == Refused(error)
    case Auth(token) => AuthAnswer(e, f, root, name, token) == Refused(error)
    case Init(_) => false
  }

  lemma JustifiedIsRefused(e: Primitives, name: string, d: Disk, op: Op, error: Error, root: string)
    requires At(root, name) && KeyFilesOk(d) && Justified(e, d, op, error)
    requires error != NamespaceMissing && error != InvalidLabel && error != InvalidKey ==> d.nsVers != []
    requires op.Issue? && error != InvalidLabel ==> ValidLabel(TrimSpace(op.rawLabel))
    requires op.Auth? && error != InvalidKey ==> StoreKeyId(op.token).Some?
    ensures IsRefused(e, root, name, FilesOf(d, root, name), op, error)
  {
    ReadsAs(d, root, name);
  }

  /** A call that is refused is refused with the error it would meet on its own, on the files of the moment in
      which it looked. */
  lemma RefusalsAreCalls(e: Primitives, s: State, pid: nat, draw: Draw, error: Error, root: string)
    requires Reachable(e, s) && Next(e, s, Advance(pid, draw)).Some? && At(root, s.name)
    requires !FailsWith(s.procs[pid], error) && FailsWith(Next(e, s, Advance(pid, draw)).value.procs[pid], error)
    ensures IsRefused(e, root, s.name, FilesOf(s.disk, root, s.name), s.procs[pid].op, error)
  {
    ReachableInv(e, s);
    var p := s.procs[pid];
    assert ProcOk(e, s.name, s.disk, s.acks, pid, p);
    ActRefuses(e, s.name, s.disk, s.acks, pid, p, draw, error);
    RefusedWhen(e, s.name, s.disk, s.acks, pid, p, draw, error);
    JustifiedIsRefused(e, s.name, s.disk, p.op, error, root);
  }

  lemma RefusedWhen(e: Primitives, name: string, d: Disk, acks: seq<Outcome>, pid: nat, p: Proc, draw: Draw, error: Error)
    requires DiskOk(e, name, d) && ProcOk(e, name, d, acks, pid, p) && !FailsWith(p, error)
    requires Act(e, name, d, pid, p, draw).Some? && FailsWith(p.(pc := Act(e, name, d, pid, p, draw).value.1), error)
    requires Justified(e, d, p.op, error)
    ensures error != NamespaceMissing && error != InvalidLabel && error != InvalidKey ==> d.nsVers != []
    ensures p.op.Issue? && error != InvalidLabel ==> ValidLabel(TrimSpace(p.op.rawLabel))
    ensures p.op.Auth? && error != InvalidKey ==> StoreKeyId(p.op.token).Some?
  {
  }

  /** A call of Init that finds everything in place answers as it would on its own. */
  lemma InitFinds(e: Primitives, s: State, pid: nat, root: string)
    requires Reachable(e, s) && pid in s.procs && s.procs[pid].op.Init? && s.procs[pid].pc.Settled?
    requires s.disk.keyVers != [] && At(root, s.name)
    ensures var f, env := FilesOf(s.disk, root, s.name), InitEnv(true, s.procs[pid].op.now, NoFault, NoFault);
            && ActSettled(s.disk, s.procs[pid].pc.ns) == Unlocking(InitOk(s.procs[pid].pc.ns))
            && InitAnswer(f, root, s.name, env) == Ok(s.procs[pid].pc.ns) && InitLeaves(f, root, s.name, env) == f
  {
    ReachableInv(e, s);
    assert ProcOk(e, s.name, s.disk, s.acks, pid, s.procs[pid]);
    FilesAt(s.disk, root, s.name);
  }

  /** Whatever happens between its open and its answer, Authenticate answers as it would on its own, on the files
      of the moment in which it opened the key file. */
  lemma AuthenticateIsCall(e: Primitives, s: State, pid: nat, draw: Draw, steps: seq<Step>, root: string)
    requires Reachable(e, s) && Next(e, s, Advance(pid, draw)).Some? && At(root, s.name)
    requires s.procs[pid].op.Auth? && s.procs[pid].pc == Checked && s.disk.keyVers != []
    requires Undisturbed(pid, steps)
    requires Run(e, Next(e, s, Advance(pid, draw)).value, steps).Some?
    ensures var s' := Run(e, Next(e, s, Advance(pid, draw)).value, steps).value;
            && pid in s'.procs
            && (s'.procs[pid].pc.Done? && s'.procs[pid].pc.out.AuthDone? ==>
                  AuthAnswer(e, FilesOf(s.disk, root, s.name), root, s.name, s.procs[pid].op.token) ==
                  match s'.procs[pid].pc.out.verdict case None => Refused(InvalidKey) case Some(k) => Ok(k))
  {
    ReachableInv(e, s);
    assert ProcOk(e, s.name, s.disk, s.acks, pid, s.procs[pid]);
    AuthenticateIsAtomic(e, s, pid, draw, steps);
    ReadsAs(s.disk, root, s.name);
  }
}
