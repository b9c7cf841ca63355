/** Runs that meet no failure: what a call of Init reaches on its own, and which of several
    concurrent calls of IssueKey for one label wins. */
module Convergence {
  import opened Text
  import opened KeyList
  import opened Protocol
  import opened Invariant
  import opened Preservation
  import opened Guarantees

  // ---- Init alone ----

  /** How many steps a call of Init has left at most. */
  function Rank(pc: Pc): nat {
    match pc
    case Start => 15
    case Checked => 14
    case Locked => 13
    case Settled(_) => 7
    case Decided(w) => if w.file == NsFile then 12 else 6
    case Created(w, _) => if w.file == NsFile then 11 else 5
    case Written(w, _) => if w.file == NsFile then 10 else 4
    case Synced(w, _) => if w.file == NsFile then 9 else 3
    case Renamed(w) => if w.file == NsFile then 8 else 2
    case Unlocking(_) => 1
    case Opened(_, _) => 1
    case Done(_) => 0
  }

  /** A call of Init that has not met an error and does not wait for a lock. */
  ghost predicate Running(s: State, pid: nat) {
    pid in s.procs && s.procs[pid].op.Init? && !s.procs[pid].pc.Opened? &&
    match s.procs[pid].pc
    case Start => s.disk.nsLock == None
    case Checked => s.disk.nsLock == None && s.disk.dir
    case Done(out) => out.InitOk? && InitDone(s.disk, out.ns) && s.disk.keyVers != [] && s.disk.dir
    case Unlocking(out) => out.InitOk? && s.disk.dir
    case _ => s.disk.dir
  }

  /** s' has the keys and the namespace of s, if s has any; a key file that s lacks is empty in s'. */
  ghost predicate Extends(s: State, s': State) {
    && s'.name == s.name
    && Hist(s'.disk) == (if s.disk.keyVers == [] && s'.disk.keyVers != [] then [[]] else Hist(s.disk))
    && (s.disk.nsVers != [] ==> s'.disk.nsVers != [] && NsContent(s'.disk) == NsContent(s.disk))
  }

  lemma InitQuiet(e: Primitives, s: State, pid: nat, draw: Draw)
    requires Inv(e, s) && Running(s, pid) && !s.procs[pid].pc.Done? && ValidDraw(draw) && !s.procs[pid].pc.Synced?
    ensures Next(e, s, Advance(pid, draw)).Some?
    ensures var s' := Next(e, s, Advance(pid, draw)).value;
            Running(s', pid) && Rank(s'.procs[pid].pc) < Rank(s.procs[pid].pc) && Extends(s, s')
  {
    var p := s.procs[pid];
    assert ProcOk(e, s.name, s.disk, s.acks, pid, p);
    InitActs(e, s.name, s.disk, s.acks, pid, p, draw);
    QuietHistory(e, s, Advance(pid, draw));
  }

  lemma InitActs(e: Primitives, name: string, d: Disk, acks: seq<Outcome>, pid: nat, p: Proc, draw: Draw)
    requires DiskOk(e, name, d) && ProcOk(e, name, d, acks, pid, p) && p.op.Init?
    requires !p.pc.Done? && !p.pc.Opened? && !p.pc.Synced? && (p.pc.Unlocking? ==> p.pc.out.InitOk?)
    requires p.pc.Checked? ==> d.nsLock == None
    ensures Act(e, name, d, pid, p, draw).Some?
    ensures var r := Act(e, name, d, pid, p, draw).value;
            Rank(r.1) < Rank(p.pc) && !r.1.Opened? && !r.1.Start? && (r.1.Checked? <==> p.pc.Start?)
            && (r.1.Done? <==> p.pc.Unlocking?)
            && (r.1.Unlocking? ==> r.1.out.InitOk?) && (r.1.Done? ==> r.1.out == p.pc.out)
  {
  }

  lemma InitPublishes(e: Primitives, s: State, pid: nat, draw: Draw)
    requires Inv(e, s) && Running(s, pid) && ValidDraw(draw) && s.procs[pid].pc.Synced?
    ensures Next(e, s, Advance(pid, draw)).Some?
    ensures var s' := Next(e, s, Advance(pid, draw)).value;
            Running(s', pid) && Rank(s'.procs[pid].pc) < Rank(s.procs[pid].pc) && Extends(s, s')
  {
    var p := s.procs[pid];
    assert ProcOk(e, s.name, s.disk, s.acks, pid, p);
    PublishHistory(e, s, pid, draw);
    assert Hist(s.disk) + [] == Hist(s.disk);
    if p.pc.w.file == KeysFile {
      assert Hist(s.disk) == [];
    }
  }

  lemma ExtendsTransitive(s: State, m: State, s': State)
    requires Extends(s, m) && Extends(m, s') && |Hist(s.disk)| == |s.disk.keyVers|
    ensures Extends(s, s')
  {
  }

  /** What Init reports is what is on disk, or will be: until there is a metadata file, the one that the
      call writes itself. */
  ghost predicate Making(s: State, pid: nat) {
    pid in s.procs && s.procs[pid].op.Init? &&
    var made := Namespace(s.name, s.procs[pid].op.now);
    var pc := s.procs[pid].pc;
    && (s.disk.nsVers != [] ==> NsContent(s.disk) == Meta(made))
    && (Writing(pc) && pc.w.file == NsFile ==> pc.w.res == InitOk(made))
  }

  lemma InitMakes(e: Primitives, s: State, pid: nat, draw: Draw)
    requires Inv(e, s) && Making(s, pid) && Next(e, s, Advance(pid, draw)).Some?
    ensures Making(Next(e, s, Advance(pid, draw)).value, pid)
  {
    assert ProcOk(e, s.name, s.disk, s.acks, pid, s.procs[pid]);
    if s.procs[pid].pc.Synced? {
      PublishHistory(e, s, pid, draw);
    } else {
      QuietHistory(e, s, Advance(pid, draw));
    }
  }

  /** One step of Init: it comes closer to its end, keeps what there was, and reports once, when it returns. */
  ghost predicate Onward(s: State, s': State, pid: nat) {
    && Running(s, pid) && Running(s', pid) && Rank(s'.procs[pid].pc) < Rank(s.procs[pid].pc) && Extends(s, s')
    && s'.procs[pid].op == s.procs[pid].op && s'.epoch == s.epoch && (Making(s, pid) ==> Making(s', pid))
    && (if s'.procs[pid].pc.Done? then s'.inits == s.inits + [(s'.procs[pid].pc.out.ns, s.epoch)] else s'.inits == s.inits)
  }

  lemma InitReports(e: Primitives, s: State, pid: nat, draw: Draw)
    requires Inv(e, s) && Running(s, pid) && Next(e, s, Advance(pid, draw)).Some?
    ensures var s' := Next(e, s, Advance(pid, draw)).value;
            && pid in s'.procs && s'.procs[pid].op == s.procs[pid].op && s'.epoch == s.epoch
            && (s'.procs[pid].pc.Done? ==> s'.procs[pid].pc.out.InitOk?)
            && (if s'.procs[pid].pc.Done? then s'.inits == s.inits + [(s'.procs[pid].pc.out.ns, s.epoch)]
                else s'.inits == s.inits)
  {
    assert ProcOk(e, s.name, s.disk, s.acks, pid, s.procs[pid]);
  }

  lemma InitAdvances(e: Primitives, s: State, pid: nat, draw: Draw)
    requires Inv(e, s) && Running(s, pid) && !s.procs[pid].pc.Done? && ValidDraw(draw)
    ensures Next(e, s, Advance(pid, draw)).Some?
    ensures Onward(s, Next(e, s, Advance(pid, draw)).value, pid) && Inv(e, Next(e, s, Advance(pid, draw)).value)
  {
    NextInv(e, s, Advance(pid, draw));
    if s.procs[pid].pc.Synced? {
      InitPublishes(e, s, pid, draw);
    } else {
      InitQuiet(e, s, pid, draw);
    }
    InitReports(e, s, pid, draw);
    if Making(s, pid) {
      InitMakes(e, s, pid, draw);
    }
  }

  /** Init has come to its end: its success is recorded as the latest one, unless it was already. */
  ghost predicate Completed(s: State, s': State, pid: nat) {
    && Running(s, pid) && Running(s', pid) && Extends(s, s') && s'.epoch == s.epoch && s'.procs[pid].pc.Done?
    && s'.procs[pid].op == s.procs[pid].op
    && (Making(s, pid) ==> Making(s', pid))
    && (if s.procs[pid].pc.Done? then s'.inits == s.inits else s'.inits == s.inits + [(s'.procs[pid].pc.out.ns, s.epoch)])
  }

  lemma CompletedCons(s: State, m: State, s': State, pid: nat)
    requires Onward(s, m, pid) && Completed(m, s', pid) && (m.procs[pid].pc.Done? ==> s' == m)
    ensures Completed(s, s', pid)
  {
    ExtendsTransitive(s, m, s');
  }

  /** A call of Init that runs on without failure or interruption returns success with the directory
      laid out in full; keys and namespace that were there before are the same as before. */
  lemma InitCompletes(e: Primitives, s: State, pid: nat, draw: Draw) returns (steps: seq<Step>)
    requires Inv(e, s) && Running(s, pid) && ValidDraw(draw)
    ensures |steps| <= Rank(s.procs[pid].pc) && forall i :: 0 <= i < |steps| ==> steps[i] == Advance(pid, draw)
    ensures Run(e, s, steps).Some? && Inv(e, Run(e, s, steps).value)
    ensures Completed(s, Run(e, s, steps).value, pid)
    ensures s.procs[pid].pc.Done? ==> steps == []
    decreases Rank(s.procs[pid].pc)
  {
    if s.procs[pid].pc.Done? {
      steps := [];
    } else {
      var step := Advance(pid, draw);
      InitAdvances(e, s, pid, draw);
      var m := Next(e, s, step).value;
      var rest := InitCompletes(e, m, pid, draw);
      steps := [step] + rest;
      RunCons(e, s, step, rest);
      CompletedCons(s, m, Run(e, m, rest).value, pid);
    }
  }

  /** The steps lead from s to a state where pid's call of Init has succeeded: the layout is complete, the
      keys and the namespace of s, if it had any, are still there, and the call reported that namespace or
      one that it made itself. */
  ghost predicate Converged(e: Primitives, s: State, steps: seq<Step>, pid: nat, now: int) {
    Run(e, s, steps).Some? &&
    var s' := Run(e, s, steps).value;
    && pid in s'.procs && s'.procs[pid].pc.Done? && s'.procs[pid].pc.out.InitOk?
    && s'.disk.dir && s'.disk.nsVers != [] && s'.disk.keyVers != []
    && NsContent(s'.disk) == Meta(s'.procs[pid].pc.out.ns)
    && Hist(s'.disk) == (if s.disk.keyVers == [] then [[]] else Hist(s.disk))
    && NsContent(s'.disk) == (if s.disk.nsVers != [] then NsContent(s.disk) else Meta(Namespace(s.name, now)))
    && s'.inits == s.inits + [(s'.procs[pid].pc.out.ns, s.epoch)]
  }

  /** Re-running converges: from every reachable state in which no call of Init holds the lock, and so
      from every crash of an earlier call, a new call of Init that meets no failure reaches the full
      layout and keeps what was there. */
  lemma ReinitConverges(e: Primitives, s: State, pid: nat, now: int, draw: Draw) returns (steps: seq<Step>)
    requires Reachable(e, s) && pid !in s.procs && s.disk.nsLock == None && ValidDraw(draw)
    ensures forall step :: step in steps ==> step == Advance(pid, draw)
    ensures Converged(e, s, [Spawn(pid, Init(now))] + steps, pid, now)
  {
    ReachableInv(e, s);
    var spawn := Spawn(pid, Init(now));
    var m := Next(e, s, spawn).value;
    NextInv(e, s, spawn);
    steps := InitCompletes(e, m, pid, draw);
    QuietHistory(e, s, spawn);
    RunCons(e, s, spawn, steps);
    ConvergedFrom(e, s, m, Run(e, m, steps).value, pid, now);
  }

  lemma ConvergedFrom(e: Primitives, s: State, m: State, s': State, pid: nat, now: int)
    requires m == s.(procs := s.procs[pid := Proc(Init(now), Start)]) && Completed(m, s', pid)
    ensures s'.disk.dir && s'.disk.nsVers != [] && s'.disk.keyVers != [] && s'.procs[pid].pc.out.InitOk?
    ensures Hist(s'.disk) == (if s.disk.keyVers == [] then [[]] else Hist(s.disk))
    ensures NsContent(s'.disk) == Meta(s'.procs[pid].pc.out.ns)
    ensures NsContent(s'.disk) == (if s.disk.nsVers != [] then NsContent(s.disk) else Meta(Namespace(s.name, now)))
    ensures s'.inits == s.inits + [(s'.procs[pid].pc.out.ns, s.epoch)]
  {
    if s.disk.nsVers == [] {
      assert Making(m, pid);
    }
  }

  /** After a crash of every call, or a power loss, the lock is free. */
  lemma NoCallNoLock(e: Primitives, s: State)
    requires Reachable(e, s) && s.procs == map[]
    ensures s.disk.nsLock == None && s.disk.keyLock == None
  {
    ReachableInv(e, s);
  }

  // ---- Concurrent issues under one label ----

  /** A call of IssueKey for a valid label that is equal to keyLabel up to case. */
  predicate Contends(e: Primitives, p: Proc, keyLabel: string) {
    p.op.Issue? && ValidLabel(TrimSpace(p.op.rawLabel)) && e.fold(TrimSpace(p.op.rawLabel)) == e.fold(keyLabel)
  }

  /** The call's key is in the key file. */
  predicate Committed(p: Proc) {
    p.pc.Renamed? || (p.pc.Unlocking? && p.pc.out.IssueOk?) || (p.pc.Done? && p.pc.out.IssueOk?)
  }

  predicate Refused(p: Proc) {
    (p.pc.Unlocking? && p.pc.out == Err(DuplicateLabel)) || (p.pc.Done? && p.pc.out == Err(DuplicateLabel))
  }

  /** No failure, no crash, no power loss and no revocation. */
  predicate Calm(step: Step) {
    step.Advance? || (step.Spawn? && !step.op.Revoke?)
  }

  /** taken tells whether the label is in use in the current version. */
  predicate Orderly(e: Primitives, keyLabel: string, taken: bool, p: Proc) {
    && !p.op.Revoke?
    && (Contends(e, p, keyLabel) ==>
          && (Committed(p) || Refused(p) ==> taken)
          && (p.pc.Unlocking? || p.pc.Done? ==> Committed(p) || Refused(p)))
  }

  predicate Winner(e: Primitives, procs: map<nat, Proc>, keyLabel: string, q: nat) {
    q in procs && Contends(e, procs[q], keyLabel) && Committed(procs[q])
  }

  ghost predicate AllOrderly(e: Primitives, procs: map<nat, Proc>, keyLabel: string, taken: bool) {
    forall q :: q in procs ==> Orderly(e, keyLabel, taken, procs[q])
  }

  ghost predicate OneWinner(e: Primitives, procs: map<nat, Proc>, keyLabel: string) {
    forall q, r :: Winner(e, procs, keyLabel, q) && Winner(e, procs, keyLabel, r) ==> q == r
  }

  ghost predicate RaceProcs(e: Primitives, procs: map<nat, Proc>, keyLabel: string, taken: bool) {
    && AllOrderly(e, procs, keyLabel, taken)
    && OneWinner(e, procs, keyLabel)
    && (taken ==> exists q :: Winner(e, procs, keyLabel, q))
  }

  predicate Taken(e: Primitives, d: Disk, keyLabel: string) {
    !LabelFree(e, Current(d), keyLabel)
  }

  ghost predicate Race(e: Primitives, s: State, keyLabel: string) {
    s.disk.keyVers != [] && s.disk.nsVers != [] && RaceProcs(e, s.procs, keyLabel, Taken(e, s.disk, keyLabel))
  }

  /** One call moves, and neither becomes nor stops being a winner. */
  lemma ProcsQuiet(e: Primitives, procs: map<nat, Proc>, keyLabel: string, taken: bool, pid: nat, p: Proc)
    requires RaceProcs(e, procs, keyLabel, taken) && Orderly(e, keyLabel, taken, p)
    requires Winner(e, procs[pid := p], keyLabel, pid) <==> Winner(e, procs, keyLabel, pid)
    ensures RaceProcs(e, procs[pid := p], keyLabel, taken)
  {
    OneWinnerStays(e, procs, keyLabel, pid, p);
    if taken {
      var q :| Winner(e, procs, keyLabel, q);
      WinnerStays(e, procs, keyLabel, pid, p, q);
    }
  }

  lemma OneWinnerStays(e: Primitives, procs: map<nat, Proc>, keyLabel: string, pid: nat, p: Proc)
    requires Winner(e, procs[pid := p], keyLabel, pid) <==> Winner(e, procs, keyLabel, pid)
    requires OneWinner(e, procs, keyLabel)
    ensures OneWinner(e, procs[pid := p], keyLabel)
  {
    var procs' := procs[pid := p];
    forall q, r | Winner(e, procs', keyLabel, q) && Winner(e, procs', keyLabel, r) ensures q == r {
      WinnerStays(e, procs, keyLabel, pid, p, q);
      WinnerStays(e, procs, keyLabel, pid, p, r);
    }
  }

  lemma WinnerStays(e: Primitives, procs: map<nat, Proc>, keyLabel: string, pid: nat, p: Proc, q: nat)
    requires Winner(e, procs[pid := p], keyLabel, pid) <==> Winner(e, procs, keyLabel, pid)
    ensures Winner(e, procs[pid := p], keyLabel, q) <==> Winner(e, procs, keyLabel, q)
  {
  }

  /** The label was free and one call has just taken it. */
  lemma ProcsWon(e: Primitives, procs: map<nat, Proc>, keyLabel: string, pid: nat, p: Proc)
    requires RaceProcs(e, procs, keyLabel, false) && Orderly(e, keyLabel, true, p)
    requires Winner(e, procs[pid := p], keyLabel, pid)
    ensures RaceProcs(e, procs[pid := p], keyLabel, true)
  {
    var procs' := procs[pid := p];
    forall q | q in procs' ensures Orderly(e, keyLabel, true, procs'[q]) {
      assert q != pid ==> Orderly(e, keyLabel, false, procs[q]);
    }
    forall q | Winner(e, procs', keyLabel, q) ensures q == pid {
      assert q != pid ==> Orderly(e, keyLabel, false, procs[q]);
    }
  }

  /** What a call of IssueKey does with the list it reads. */
  lemma IssueDecides(e: Primitives, name: string, d: Disk, raw: string, draw: Draw)
    requires KeyFilesOk(d) && d.keyVers != []
    ensures var pc := ActLocked(e, name, d, Issue(raw), draw);
            pc.Decided? || (pc == Unlocking(Err(DuplicateLabel)) && !LabelFree(e, Current(d), TrimSpace(raw)))
  {
    assert ReadableKeys(KeysContent(d));
  }

  /** A step that commits nothing, and ends a call only by the refusal of a label that is in use. */
  predicate IssueMoves(e: Primitives, d: Disk, p: Proc, p': Proc)
    requires p.op.Issue?
  {
    && (Committed(p') <==> Committed(p))
    && ((p'.pc.Unlocking? || p'.pc.Done?) && !(p.pc.Unlocking? || p.pc.Done?) ==>
         Committed(p') || (Refused(p') && !LabelFree(e, Current(d), TrimSpace(p.op.rawLabel))))
    && ((p.pc.Unlocking? || p.pc.Done?) ==> (Refused(p) <==> Refused(p')))
  }

  lemma IssueStarts(e: Primitives, name: string, d: Disk, pid: nat, p: Proc, draw: Draw)
    requires d.nsVers != [] && p.op.Issue? && ValidLabel(TrimSpace(p.op.rawLabel)) && (p.pc.Start? || p.pc.Checked?)
    requires Act(e, name, d, pid, p, draw).Some?
    ensures IssueMoves(e, d, p, p.(pc := Act(e, name, d, pid, p, draw).value.1))
  {
    var pc := Act(e, name, d, pid, p, draw).value.1;
    assert pc.Checked? || pc.Locked?;
    IssueEnters(e, d, p, pc);
  }

  lemma IssueEnters(e: Primitives, d: Disk, p: Proc, pc: Pc)
    requires p.op.Issue? && (p.pc.Start? || p.pc.Checked?) && (pc.Checked? || pc.Locked?)
    ensures IssueMoves(e, d, p, p.(pc := pc))
  {
  }

  lemma IssueReads(e: Primitives, name: string, d: Disk, pid: nat, p: Proc, draw: Draw)
    requires KeyFilesOk(d) && d.keyVers != [] && p.op.Issue? && p.pc.Locked?
    ensures IssueMoves(e, d, p, p.(pc := Act(e, name, d, pid, p, draw).value.1))
  {
    IssueDecides(e, name, d, p.op.rawLabel, draw);
    IssueMovesOn(e, d, p, ActLocked(e, name, d, p.op, draw));
  }

  lemma IssueMovesOn(e: Primitives, d: Disk, p: Proc, pc: Pc)
    requires p.op.Issue? && p.pc.Locked?
    requires pc.Decided? || (pc == Unlocking(Err(DuplicateLabel)) && !LabelFree(e, Current(d), TrimSpace(p.op.rawLabel)))
    ensures IssueMoves(e, d, p, p.(pc := pc))
  {
  }

  lemma IssueWrites(e: Primitives, name: string, d: Disk, acks: seq<Outcome>, pid: nat, p: Proc, draw: Draw)
    requires ProcOk(e, name, d, acks, pid, p) && p.op.Issue?
    requires !p.pc.Start? && !p.pc.Checked? && !p.pc.Locked? && !p.pc.Synced?
    requires Act(e, name, d, pid, p, draw).Some?
    ensures IssueMoves(e, d, p, p.(pc := Act(e, name, d, pid, p, draw).value.1))
  {
  }

  lemma IssueActs(e: Primitives, name: string, d: Disk, acks: seq<Outcome>, pid: nat, p: Proc, draw: Draw)
    requires DiskOk(e, name, d) && ProcOk(e, name, d, acks, pid, p) && p.op.Issue?
    requires ValidLabel(TrimSpace(p.op.rawLabel)) && d.nsVers != [] && d.keyVers != []
    requires !p.pc.Synced? && Act(e, name, d, pid, p, draw).Some?
    ensures IssueMoves(e, d, p, p.(pc := Act(e, name, d, pid, p, draw).value.1))
  {
    if p.pc.Locked? {
      IssueReads(e, name, d, pid, p, draw);
    } else if p.pc.Start? || p.pc.Checked? {
      IssueStarts(e, name, d, pid, p, draw);
    } else {
      IssueWrites(e, name, d, acks, pid, p, draw);
    }
  }

  lemma SameFold(e: Primitives, keys: seq<Key>, keyLabel: string, other: string)
    requires e.fold(keyLabel) == e.fold(other)
    ensures LabelFree(e, keys, keyLabel) <==> LabelFree(e, keys, other)
  {
  }

  lemma AdvanceOrderly(e: Primitives, name: string, d: Disk, acks: seq<Outcome>, pid: nat, p: Proc, draw: Draw, keyLabel: string)
    requires DiskOk(e, name, d) && ProcOk(e, name, d, acks, pid, p) && d.nsVers != [] && d.keyVers != []
    requires !p.pc.Synced? && Act(e, name, d, pid, p, draw).Some?
    requires Orderly(e, keyLabel, Taken(e, d, keyLabel), p)
    ensures var p' := p.(pc := Act(e, name, d, pid, p, draw).value.1);
            Orderly(e, keyLabel, Taken(e, d, keyLabel), p') && (Contends(e, p, keyLabel) ==> (Committed(p') <==> Committed(p)))
  {
    if Contends(e, p, keyLabel) {
      IssueActs(e, name, d, acks, pid, p, draw);
      SameFold(e, Current(d), TrimSpace(p.op.rawLabel), keyLabel);
    }
  }

  lemma RaceAdvance(e: Primitives, s: State, keyLabel: string, pid: nat, draw: Draw)
    requires Inv(e, s) && Race(e, s, keyLabel) && Next(e, s, Advance(pid, draw)).Some? && !s.procs[pid].pc.Synced?
    ensures Race(e, Next(e, s, Advance(pid, draw)).value, keyLabel)
  {
    var p := s.procs[pid];
    assert ProcOk(e, s.name, s.disk, s.acks, pid, p);
    QuietHistory(e, s, Advance(pid, draw));
    NextMoves(e, s, pid, draw);
    AdvanceOrderly(e, s.name, s.disk, s.acks, pid, p, draw, keyLabel);
    var p' := p.(pc := Act(e, s.name, s.disk, pid, p, draw).value.1);
    RaceKept(e, s, Next(e, s, Advance(pid, draw)).value, keyLabel, pid, p');
  }

  lemma RaceKept(e: Primitives, s: State, s': State, keyLabel: string, pid: nat, p: Proc)
    requires Race(e, s, keyLabel) && pid in s.procs && s'.procs == s.procs[pid := p]
    requires Hist(s'.disk) == Hist(s.disk) && Current(s'.disk) == Current(s.disk) && s'.disk.nsVers != []
    requires Orderly(e, keyLabel, Taken(e, s.disk, keyLabel), p)
    requires Contends(e, s.procs[pid], keyLabel) ==> (Committed(p) <==> Committed(s.procs[pid]))
    requires p.op == s.procs[pid].op
    ensures Race(e, s', keyLabel)
  {
    ProcsQuiet(e, s.procs, keyLabel, Taken(e, s.disk, keyLabel), pid, p);
    assert |Hist(s'.disk)| == |s'.disk.keyVers|;
  }

  /** A renamed change is a key whose label was free. */
  lemma PublishedKey(e: Primitives, s: State, pid: nat, draw: Draw)
    requires Inv(e, s) && Next(e, s, Advance(pid, draw)).Some? && s.procs[pid].pc.Synced?
    requires s.disk.keyVers != [] && s.disk.nsVers != [] && !s.procs[pid].op.Revoke?
    ensures var p, s' := s.procs[pid], Next(e, s, Advance(pid, draw)).value;
            && p.op.Issue? && p.pc.w.res.IssueOk? && ValidLabel(TrimSpace(p.op.rawLabel))
            && Current(s'.disk) == Current(s.disk) + [p.pc.w.res.key]
            && p.pc.w.res.key.keyLabel == TrimSpace(p.op.rawLabel)
            && LabelFree(e, Current(s.disk), TrimSpace(p.op.rawLabel))
            && s'.disk.keyVers != [] && s'.disk.nsVers != []
  {
    PublishHistory(e, s, pid, draw);
    var h' := Hist(Next(e, s, Advance(pid, draw)).value.disk);
    assert h'[|h'| - 1] == Current(Next(e, s, Advance(pid, draw)).value.disk);
  }

  lemma AppendTaken(e: Primitives, keys: seq<Key>, k: Key, keyLabel: string)
    ensures LabelFree(e, keys + [k], keyLabel) <==> LabelFree(e, keys, keyLabel) && e.fold(k.keyLabel) != e.fold(keyLabel)
  {
    assert k in keys + [k];
    assert forall x :: x in keys ==> x in keys + [k];
  }

  lemma RaceKey(e: Primitives, s: State, s': State, keyLabel: string, pid: nat, k: Key)
    requires Race(e, s, keyLabel) && pid in s.procs && s.procs[pid].op.Issue? && s.procs[pid].pc.Synced?
    requires ValidLabel(TrimSpace(s.procs[pid].op.rawLabel)) && k.keyLabel == TrimSpace(s.procs[pid].op.rawLabel)
    requires LabelFree(e, Current(s.disk), k.keyLabel) && Current(s'.disk) == Current(s.disk) + [k]
    requires s'.disk.keyVers != [] && s'.disk.nsVers != []
    requires s'.procs == s.procs[pid := s.procs[pid].(pc := Renamed(s.procs[pid].pc.w))]
    ensures Race(e, s', keyLabel)
  {
    var p, p' := s.procs[pid], s'.procs[pid];
    AppendTaken(e, Current(s.disk), k, keyLabel);
    if Contends(e, p, keyLabel) {
      SameFold(e, Current(s.disk), k.keyLabel, keyLabel);
      ProcsWon(e, s.procs, keyLabel, pid, p');
    } else {
      ProcsQuiet(e, s.procs, keyLabel, Taken(e, s.disk, keyLabel), pid, p');
    }
  }

  lemma RacePublish(e: Primitives, s: State, keyLabel: string, pid: nat, draw: Draw)
    requires Inv(e, s) && Race(e, s, keyLabel) && Next(e, s, Advance(pid, draw)).Some? && s.procs[pid].pc.Synced?
    ensures Race(e, Next(e, s, Advance(pid, draw)).value, keyLabel)
  {
    var p, s' := s.procs[pid], Next(e, s, Advance(pid, draw)).value;
    assert Orderly(e, keyLabel, Taken(e, s.disk, keyLabel), p);
    PublishedKey(e, s, pid, draw);
    NextMoves(e, s, pid, draw);
    RaceKey(e, s, s', keyLabel, pid, p.pc.w.res.key);
  }

  lemma {:induction false} RaceRun(e: Primitives, s: State, keyLabel: string, steps: seq<Step>)
    requires Inv(e, s) && Race(e, s, keyLabel) && Run(e, s, steps).Some?
    requires forall i :: 0 <= i < |steps| ==> Calm(steps[i])
    ensures Race(e, Run(e, s, steps).value, keyLabel)
    decreases |steps|
  {
    if steps != [] {
      var n := |steps| - 1;
      RaceRun(e, s, keyLabel, steps[..n]);
      RunInv(e, s, steps[..n]);
      var m, step := Run(e, s, steps[..n]).value, steps[n];
      if step.Spawn? {
        ProcsQuiet(e, m.procs, keyLabel, Taken(e, m.disk, keyLabel), step.pid, Proc(step.op, Start));
      } else if m.procs[step.pid].pc.Synced? {
        RacePublish(e, m, keyLabel, step.pid, step.draw);
      } else {
        RaceAdvance(e, m, keyLabel, step.pid, step.draw);
      }
    }
  }

  lemma RaceFinished(e: Primitives, procs: map<nat, Proc>, keyLabel: string, taken: bool, q: nat) returns (winner: nat)
    requires RaceProcs(e, procs, keyLabel, taken) && q in procs && Contends(e, procs[q], keyLabel)
    requires forall r :: r in procs ==> procs[r].pc.Done?
    ensures winner in procs && Contends(e, procs[winner], keyLabel) && procs[winner].pc.out.IssueOk?
    ensures forall r :: r in procs && Contends(e, procs[r], keyLabel) && r != winner ==> procs[r].pc.out == Err(DuplicateLabel)
  {
    assert Orderly(e, keyLabel, taken, procs[q]);
    winner :| Winner(e, procs, keyLabel, winner);
    forall r | r in procs && Contends(e, procs[r], keyLabel) && r != winner
      ensures procs[r].pc.out == Err(DuplicateLabel)
    {
      assert Orderly(e, keyLabel, taken, procs[r]);
      assert !Winner(e, procs, keyLabel, r);
    }
  }

  /** Any number of concurrent calls of IssueKey under labels equal up to case, with any other calls but
      revocations, in an initialised namespace where the label is free: when no failure occurs and all
      have returned, exactly one has succeeded and the others report a duplicate label. */
  lemma ExactlyOneWins(e: Primitives, s: State, keyLabel: string, steps: seq<Step>, q: nat) returns (winner: nat)
    requires Reachable(e, s) && s.procs == map[] && s.disk.nsVers != [] && s.disk.keyVers != []
    requires LabelFree(e, Current(s.disk), keyLabel)
    requires Run(e, s, steps).Some? && forall i :: 0 <= i < |steps| ==> Calm(steps[i])
    requires var s' := Run(e, s, steps).value;
             && q in s'.procs && Contends(e, s'.procs[q], keyLabel)
             && forall r :: r in s'.procs ==> s'.procs[r].pc.Done?
    ensures var procs := Run(e, s, steps).value.procs;
            && winner in procs && Contends(e, procs[winner], keyLabel) && procs[winner].pc.out.IssueOk?
            && forall r :: r in procs && Contends(e, procs[r], keyLabel) && r != winner ==>
                 procs[r].pc.out == Err(DuplicateLabel)
  {
    ReachableInv(e, s);
    RaceRun(e, s, keyLabel, steps);
    var s' := Run(e, s, steps).value;
    winner := RaceFinished(e, s'.procs, keyLabel, Taken(e, s'.disk, keyLabel), q);
  }
}
