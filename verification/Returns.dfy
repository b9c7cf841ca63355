/** How calls of the store return: every live call can be brought to its end, and a call refuses only for a
    reason that was true of the files when it looked. */
module Returns {
  import opened Text
  import opened Token
  import opened KeyList
  import opened Protocol
  import opened Invariant
  import opened Preservation
  import opened Guarantees
  import opened Convergence
  import opened Durability

  // ---- Progress ----

  /** The call does not wait for a lock. */
  ghost predicate Unblocked(s: State, pid: nat) {
    pid in s.procs &&
    var p := s.procs[pid];
    p.op.Auth? || Holds(p) || p.pc.Done? || p.pc.Opened? || LockOf(s.disk, p.op) == None
  }

  /** One step of a call that does not wait. */
  ghost predicate Steps(s: State, s': State, pid: nat) {
    && Unblocked(s, pid) && Unblocked(s', pid) && s'.procs[pid].op == s.procs[pid].op
    && Rank(s'.procs[pid].pc) < Rank(s.procs[pid].pc)
    && s'.procs.Keys == s.procs.Keys && (forall q :: q in s.procs && q != pid ==> s'.procs[q] == s.procs[q])
    && (Holds(s.procs[pid]) ==> Holds(s'.procs[pid]) || (s'.procs[pid].pc.Done? && LockOf(s'.disk, s.procs[pid].op) == None))
  }

  /** What a step of a call leads to: it comes closer to its end, does not wait, and gives its lock back
      when it returns. */
  predicate GoesOn(p: Proc, d: Disk, pc: Pc) {
    var p' := p.(pc := pc);
    && Rank(pc) < Rank(p.pc)
    && (p.op.Auth? || Holds(p') || pc.Done? || pc.Opened? || LockOf(d, p.op) == None)
    && (Holds(p) ==> Holds(p') || (pc.Done? && LockOf(d, p.op) == None))
  }

  /** Every call starts by going on or by returning, and leaves the locks alone. */
  predicate StartsWell(d: Disk, op: Op) {
    var r := ActStart(d, op);
    (r.1.Checked? || r.1.Done?) && LockOf(r.0, op) == LockOf(d, op)
  }

  lemma InitStarts(d: Disk, now: int)
    ensures StartsWell(d, Init(now))
  {
  }

  lemma IssueStartsWell(d: Disk, raw: string)
    ensures StartsWell(d, Issue(raw))
  {
  }

  lemma RevokeStarts(d: Disk, id: string)
    ensures StartsWell(d, Revoke(id))
  {
  }

  lemma AuthStarts(d: Disk, token: string)
    ensures StartsWell(d, Auth(token))
  {
  }

  lemma StartGoesOn(e: Primitives, name: string, d: Disk, pid: nat, p: Proc, draw: Draw)
    requires p.pc.Start? && (p.op.Auth? || LockOf(d, p.op) == None)
    ensures Act(e, name, d, pid, p, draw).Some?
    ensures GoesOn(p, Act(e, name, d, pid, p, draw).value.0, Act(e, name, d, pid, p, draw).value.1)
  {
    match p.op
    case Init(now) => InitStarts(d, now);
    case Issue(raw) => IssueStartsWell(d, raw);
    case Revoke(id) => RevokeStarts(d, id);
    case Auth(token) => AuthStarts(d, token);
  }

  lemma CheckedGoesOn(e: Primitives, name: string, d: Disk, pid: nat, p: Proc, draw: Draw)
    requires p.pc.Checked? && (p.op.Auth? || LockOf(d, p.op) == None)
    ensures Act(e, name, d, pid, p, draw).Some?
    ensures GoesOn(p, Act(e, name, d, pid, p, draw).value.0, Act(e, name, d, pid, p, draw).value.1)
  {
    var pc := ActChecked(d, pid, p.op).value.1;
    assert pc.Locked? || pc.Opened? || pc.Done?;
  }

  lemma OpenedGoesOn(e: Primitives, name: string, d: Disk, pid: nat, p: Proc, draw: Draw)
    requires p.pc.Opened?
    ensures Act(e, name, d, pid, p, draw).Some?
    ensures GoesOn(p, Act(e, name, d, pid, p, draw).value.0, Act(e, name, d, pid, p, draw).value.1)
  {
    assert ActOpened(e, d, p.op, p.pc.ino, p.pc.at).Done?;
  }

  lemma ReadingGoesOn(e: Primitives, name: string, d: Disk, pid: nat, p: Proc, draw: Draw)
    requires !p.op.Auth? && (p.pc.Locked? || p.pc.Settled?)
    ensures Act(e, name, d, pid, p, draw).Some?
    ensures GoesOn(p, Act(e, name, d, pid, p, draw).value.0, Act(e, name, d, pid, p, draw).value.1)
  {
  }

  lemma WritingGoesOn(e: Primitives, name: string, d: Disk, pid: nat, p: Proc, draw: Draw)
    requires Writing(p.pc) || p.pc.Renamed? || p.pc.Unlocking?
    requires p.pc.Created? || p.pc.Written? || p.pc.Synced? ==> p.pc.ino < |d.inodes|
    ensures Act(e, name, d, pid, p, draw).Some?
    ensures GoesOn(p, Act(e, name, d, pid, p, draw).value.0, Act(e, name, d, pid, p, draw).value.1)
  {
  }

  lemma CallGoesOn(e: Primitives, name: string, d: Disk, acks: seq<Outcome>, pid: nat, p: Proc, draw: Draw)
    requires ProcOk(e, name, d, acks, pid, p) && !p.pc.Done?
    requires p.op.Auth? || Holds(p) || p.pc.Opened? || LockOf(d, p.op) == None
    ensures Act(e, name, d, pid, p, draw).Some?
    ensures GoesOn(p, Act(e, name, d, pid, p, draw).value.0, Act(e, name, d, pid, p, draw).value.1)
  {
    if p.pc.Start? {
      StartGoesOn(e, name, d, pid, p, draw);
    } else if p.pc.Checked? {
      CheckedGoesOn(e, name, d, pid, p, draw);
    } else if p.pc.Opened? {
      OpenedGoesOn(e, name, d, pid, p, draw);
    } else if p.pc.Locked? || p.pc.Settled? {
      ReadingGoesOn(e, name, d, pid, p, draw);
    } else {
      WritingGoesOn(e, name, d, pid, p, draw);
    }
  }

  lemma UnblockedSteps(e: Primitives, s: State, pid: nat, draw: Draw)
    requires Inv(e, s) && Unblocked(s, pid) && !s.procs[pid].pc.Done? && ValidDraw(draw)
    ensures Next(e, s, Advance(pid, draw)).Some?
    ensures Steps(s, Next(e, s, Advance(pid, draw)).value, pid) && Inv(e, Next(e, s, Advance(pid, draw)).value)
  {
    assert ProcOk(e, s.name, s.disk, s.acks, pid, s.procs[pid]);
    CallGoesOn(e, s.name, s.disk, s.acks, pid, s.procs[pid], draw);
    NextInv(e, s, Advance(pid, draw));
  }

  /** pid has come to its end, and no other call has moved. */
  ghost predicate Returned(s: State, s': State, pid: nat) {
    && pid in s.procs && s'.procs.Keys == s.procs.Keys
    && s'.procs[pid].op == s.procs[pid].op && s'.procs[pid].pc.Done?
    && (forall q :: q in s.procs && q != pid ==> s'.procs[q] == s.procs[q])
    && (Holds(s.procs[pid]) ==> LockOf(s'.disk, s.procs[pid].op) == None)
  }

  lemma ReturnedCons(s: State, m: State, s': State, pid: nat)
    requires Steps(s, m, pid) && Returned(m, s', pid) && (m.procs[pid].pc.Done? ==> s' == m)
    ensures Returned(s, s', pid)
  {
  }

  lemma UnblockedReturns(e: Primitives, s: State, pid: nat, draw: Draw) returns (steps: seq<Step>)
    requires Inv(e, s) && Unblocked(s, pid) && ValidDraw(draw)
    ensures forall step :: step in steps ==> step == Advance(pid, draw)
    ensures Run(e, s, steps).Some? && Inv(e, Run(e, s, steps).value) && Returned(s, Run(e, s, steps).value, pid)
    ensures s.procs[pid].pc.Done? ==> steps == []
    decreases Rank(s.procs[pid].pc)
  {
    if s.procs[pid].pc.Done? {
      steps := [];
    } else {
      var step := Advance(pid, draw);
      UnblockedSteps(e, s, pid, draw);
      var m := Next(e, s, step).value;
      var rest := UnblockedReturns(e, m, pid, draw);
      steps := [step] + rest;
      RunCons(e, s, step, rest);
      ReturnedCons(s, m, Run(e, m, rest).value, pid);
    }
  }

  /** Nothing deadlocks: in every reachable state every call can be brought to return without a failure, by
      letting at most the holder of its lock go first. */
  lemma EveryCallCanReturn(e: Primitives, s: State, pid: nat, draw: Draw) returns (steps: seq<Step>)
    requires Reachable(e, s) && pid in s.procs && ValidDraw(draw)
    ensures forall step :: step in steps ==> step.Advance? && step.draw == draw
    ensures Run(e, s, steps).Some?
    ensures pid in Run(e, s, steps).value.procs && Run(e, s, steps).value.procs[pid].pc.Done?
  {
    ReachableInv(e, s);
    if Unblocked(s, pid) {
      steps := UnblockedReturns(e, s, pid, draw);
    } else {
      var q := LockOf(s.disk, s.procs[pid].op).value;
      assert ProcOk(e, s.name, s.disk, s.acks, q, s.procs[q]);
      var first := UnblockedReturns(e, s, q, draw);
      var m := Run(e, s, first).value;
      var second := UnblockedReturns(e, m, pid, draw);
      steps := first + second;
      RunAppend(e, s, first, second);
    }
  }

  // ---- Refusals ----

  /** What the error of a call that met no failure says about the files. */
  predicate Justified(e: Primitives, d: Disk, op: Op, error: Error) {
    match error
    case NotExist => !op.Init? && d.keyVers == []
    case NamespaceMissing => (op.Issue? || op.Revoke?) && d.nsVers == []
    case InvalidLabel => op.Issue? && !ValidLabel(TrimSpace(op.rawLabel))
    case DuplicateLabel => op.Issue? && d.keyVers != [] && !LabelFree(e, Current(d), TrimSpace(op.rawLabel))
    case KeyMissing => op.Revoke? && d.keyVers != [] && !HasId(Current(d), op.id)
    case InvalidKey => op.Auth? && (d.nsVers == [] || StoreKeyId(op.token).None?)
    case _ => false
  }

  predicate FailsWith(p: Proc, error: Error) {
    (p.pc.Unlocking? || p.pc.Done?) && p.pc.out == Err(error)
  }

  lemma StartRefuses(e: Primitives, d: Disk, op: Op, error: Error)
    requires ActStart(d, op).1 == Done(Err(error))
    ensures Justified(e, d, op, error)
  {
  }

  lemma LockedRefuses(e: Primitives, name: string, d: Disk, op: Op, draw: Draw, error: Error)
    requires NsFilesOk(name, d) && KeyFilesOk(d) && !op.Auth? && ActLocked(e, name, d, op, draw) == Unlocking(Err(error))
    ensures Justified(e, d, op, error)
  {
    if d.keyVers != [] {
      assert ReadableKeys(KeysContent(d));
    }
  }

  /** After its read a call meets no error of its own. */
  lemma LaterNeverRefuses(e: Primitives, name: string, d: Disk, acks: seq<Outcome>, pid: nat, p: Proc, draw: Draw, error: Error)
    requires DiskOk(e, name, d) && ProcOk(e, name, d, acks, pid, p) && !FailsWith(p, error)
    requires !p.pc.Start? && !p.pc.Checked? && !p.pc.Locked?
    requires Act(e, name, d, pid, p, draw).Some?
    ensures !FailsWith(p.(pc := Act(e, name, d, pid, p, draw).value.1), error)
  {
    if p.pc.Opened? {
      assert ReadableKeys(ContentAt(d, d.keyVers[p.pc.at]));
    }
  }

  lemma ActRefuses(e: Primitives, name: string, d: Disk, acks: seq<Outcome>, pid: nat, p: Proc, draw: Draw, error: Error)
    requires DiskOk(e, name, d) && ProcOk(e, name, d, acks, pid, p) && !FailsWith(p, error)
    requires Act(e, name, d, pid, p, draw).Some? && FailsWith(p.(pc := Act(e, name, d, pid, p, draw).value.1), error)
    ensures Justified(e, d, p.op, error)
  {
    if p.pc.Start? {
      StartRefuses(e, d, p.op, error);
    } else if p.pc.Locked? {
      LockedRefuses(e, name, d, p.op, draw, error);
    } else if !p.pc.Checked? {
      LaterNeverRefuses(e, name, d, acks, pid, p, draw, error);
    }
  }

  /** Why a call goes over to an error: what it reads, or a failure, which it reports as an I/O error or, in
      the first check of Authenticate, as an invalid key. */
  ghost predicate Reason(e: Primitives, s: State, step: Step, pid: nat, op: Op, error: Error) {
    && pid in s.procs && s.procs[pid].op == op
    && if step == Fail(pid) then error == Io || (op.Auth? && error == InvalidKey)
       else step.Advance? && step.pid == pid && Justified(e, s.disk, op, error)
  }

  lemma StepRefuses(e: Primitives, s: State, step: Step, pid: nat, error: Error)
    requires Inv(e, s) && Next(e, s, step).Some?
    requires pid in Next(e, s, step).value.procs && FailsWith(Next(e, s, step).value.procs[pid], error)
    ensures var op := Next(e, s, step).value.procs[pid].op;
            || (pid in s.procs && s.procs[pid].op == op && FailsWith(s.procs[pid], error))
            || Reason(e, s, step, pid, op, error)
  {
    if step.Advance? && step.pid == pid {
      assert ProcOk(e, s.name, s.disk, s.acks, pid, s.procs[pid]);
      if !FailsWith(s.procs[pid], error) {
        ActRefuses(e, s.name, s.disk, s.acks, pid, s.procs[pid], step.draw, error);
      }
    }
  }

  /** Every error a call returns was right when the call met it: at some step of the run the call failed, or
      the error was true of the version of the files that was current then. No call ever finds a corrupt
      file or the metadata of another namespace. */
  lemma {:induction false} RefusalsAreRight(e: Primitives, name: string, steps: seq<Step>, pid: nat, error: Error)
    requires Run(e, Fresh(name), steps).Some?
    requires var s := Run(e, Fresh(name), steps).value; pid in s.procs && FailsWith(s.procs[pid], error)
    ensures var op := Run(e, Fresh(name), steps).value.procs[pid].op;
            exists j :: 0 <= j < |steps| && Run(e, Fresh(name), steps[..j]).Some?
              && Reason(e, Run(e, Fresh(name), steps[..j]).value, steps[j], pid, op, error)
    decreases |steps|
  {
    if steps != [] {
      var n := |steps| - 1;
      var init := steps[..n];
      var m := Run(e, Fresh(name), init).value;
      var op := Run(e, Fresh(name), steps).value.procs[pid].op;
      FreshRun(e, name, init);
      StepRefuses(e, m, steps[n], pid, error);
      if pid in m.procs && m.procs[pid].op == op && FailsWith(m.procs[pid], error) {
        RefusalsAreRight(e, name, init, pid, error);
        var j :| 0 <= j < n && Run(e, Fresh(name), init[..j]).Some?
                 && Reason(e, Run(e, Fresh(name), init[..j]).value, init[j], pid, op, error);
        assert steps[..j] == init[..j] && steps[j] == init[j];
      }
    }
  }
}
