/** Which failed calls have changed the keys: exactly those whose failure came after their rename. */
module Failures {
  import opened Text
  import opened KeyList
  import opened History
  import opened Protocol
  import opened Invariant
  import opened Guarantees
  import opened Durability
  import opened Returns

  /** The step takes the call away. */
  predicate Ends(step: Step, pid: nat) {
    step == Crash(pid) || step.PowerLoss?
  }

  /** The call renames its own version of the key file into place. */
  predicate Renames(s: State, step: Step, pid: nat) {
    step.Advance? && step.pid == pid && pid in s.procs && s.procs[pid].pc.Synced?
  }

  /** The call fails when its file is in place and the directory is not synced. */
  predicate FailsLate(s: State, step: Step, pid: nat) {
    step == Fail(pid) && pid in s.procs && s.procs[pid].pc.Renamed?
  }

  /** Step j of the run was a step of the call that pid still is. */
  predicate OwnStep(e: Primitives, name: string, steps: seq<Step>, pid: nat, j: int) {
    && 0 <= j < |steps| && Run(e, Fresh(name), steps[..j]).Some?
    && forall i :: j < i < |steps| ==> !Ends(steps[i], pid)
  }

  predicate RenamedAt(e: Primitives, name: string, steps: seq<Step>, pid: nat, j: int) {
    OwnStep(e, name, steps, pid, j) && Renames(Run(e, Fresh(name), steps[..j]).value, steps[j], pid)
  }

  predicate FailedLateAt(e: Primitives, name: string, steps: seq<Step>, pid: nat, j: int) {
    OwnStep(e, name, steps, pid, j) && FailsLate(Run(e, Fresh(name), steps[..j]).value, steps[j], pid)
  }

  ghost predicate HasRenamed(e: Primitives, name: string, steps: seq<Step>, pid: nat) {
    exists j :: RenamedAt(e, name, steps, pid, j)
  }

  ghost predicate HasFailedLate(e: Primitives, name: string, steps: seq<Step>, pid: nat) {
    exists j :: FailedLateAt(e, name, steps, pid, j)
  }

  lemma OwnBefore(e: Primitives, name: string, steps: seq<Step>, pid: nat, j: int)
    requires steps != [] && 0 <= j < |steps| - 1
    ensures var n := |steps| - 1;
            && (RenamedAt(e, name, steps, pid, j) <==> RenamedAt(e, name, steps[..n], pid, j) && !Ends(steps[n], pid))
            && (FailedLateAt(e, name, steps, pid, j) <==> FailedLateAt(e, name, steps[..n], pid, j) && !Ends(steps[n], pid))
  {
    var n := |steps| - 1;
    var init := steps[..n];
    assert init[..j] == steps[..j] && init[j] == steps[j];
    assert forall i :: j < i < n ==> init[i] == steps[i];
  }

  lemma OwnSnoc(e: Primitives, name: string, steps: seq<Step>, pid: nat)
    requires steps != [] && Run(e, Fresh(name), steps[..|steps| - 1]).Some?
    ensures var n := |steps| - 1;
            var m := Run(e, Fresh(name), steps[..n]).value;
            && (HasRenamed(e, name, steps, pid) <==>
                  (HasRenamed(e, name, steps[..n], pid) && !Ends(steps[n], pid)) || Renames(m, steps[n], pid))
            && (HasFailedLate(e, name, steps, pid) <==>
                  (HasFailedLate(e, name, steps[..n], pid) && !Ends(steps[n], pid)) || FailsLate(m, steps[n], pid))
  {
    var n := |steps| - 1;
    forall j | 0 <= j < n
      ensures RenamedAt(e, name, steps, pid, j) <==> RenamedAt(e, name, steps[..n], pid, j) && !Ends(steps[n], pid)
      ensures FailedLateAt(e, name, steps, pid, j) <==> FailedLateAt(e, name, steps[..n], pid, j) && !Ends(steps[n], pid)
    {
      OwnBefore(e, name, steps, pid, j);
    }
    assert RenamedAt(e, name, steps, pid, n) <==> Renames(Run(e, Fresh(name), steps[..n]).value, steps[n], pid);
    assert FailedLateAt(e, name, steps, pid, n) <==> FailsLate(Run(e, Fresh(name), steps[..n]).value, steps[n], pid);
  }

  /** What a change of the keys has done so far, by where it stands. */
  predicate Standing(p: Proc, renamed: bool, failedLate: bool) {
    match p.pc
    case Unlocking(out) => if out.Err? then renamed == failedLate else renamed && !failedLate
    case Done(out) => if out.Err? then renamed == failedLate else renamed && !failedLate
    case Renamed(_) => renamed && !failedLate
    case _ => !renamed && !failedLate
  }

  predicate Changes(op: Op) { op.Issue? || op.Revoke? }

  lemma StandingAct(e: Primitives, name: string, d: Disk, acks: seq<Outcome>, pid: nat, p: Proc, draw: Draw, renamed: bool, late: bool)
    requires ProcOk(e, name, d, acks, pid, p) && Changes(p.op) && Standing(p, renamed, late)
    requires Act(e, name, d, pid, p, draw).Some?
    ensures Standing(p.(pc := Act(e, name, d, pid, p, draw).value.1), renamed || p.pc.Synced?, late)
  {
    if p.pc.Locked? {
      StandingLocked(e, name, d, p.op, draw);
    }
  }

  lemma StandingLocked(e: Primitives, name: string, d: Disk, op: Op, draw: Draw)
    requires Changes(op)
    ensures var pc := ActLocked(e, name, d, op, draw); pc.Decided? || (pc.Unlocking? && pc.out.Err?)
  {
  }

  lemma StandingFailed(p: Proc, renamed: bool, late: bool)
    requires Changes(p.op) && Standing(p, renamed, late) && Failed(p).Some?
    ensures Standing(p.(pc := Failed(p).value), renamed, late || p.pc.Renamed?)
  {
  }

  lemma StandingStep(e: Primitives, s: State, step: Step, pid: nat, renamed: bool, late: bool)
    requires Inv(e, s) && Next(e, s, step).Some?
    requires pid in Next(e, s, step).value.procs && Changes(Next(e, s, step).value.procs[pid].op)
    requires if pid in s.procs then Standing(s.procs[pid], renamed, late) else !renamed && !late
    ensures Standing(Next(e, s, step).value.procs[pid],
                     (renamed && !Ends(step, pid)) || Renames(s, step, pid), (late && !Ends(step, pid)) || FailsLate(s, step, pid))
  {
    if step.Advance? && step.pid == pid {
      assert ProcOk(e, s.name, s.disk, s.acks, pid, s.procs[pid]);
      StandingAct(e, s.name, s.disk, s.acks, pid, s.procs[pid], step.draw, renamed, late);
    } else if step == Fail(pid) {
      StandingFailed(s.procs[pid], renamed, late);
    }
  }

  /** Where the call pid stands is what its own steps have done; of a call that is not there nothing is left. */
  ghost predicate StandsSo(e: Primitives, name: string, steps: seq<Step>, pid: nat, s: State) {
    if pid in s.procs then
      Changes(s.procs[pid].op) ==>
        Standing(s.procs[pid], HasRenamed(e, name, steps, pid), HasFailedLate(e, name, steps, pid))
    else !HasRenamed(e, name, steps, pid) && !HasFailedLate(e, name, steps, pid)
  }

  lemma StandsOn(e: Primitives, name: string, steps: seq<Step>, pid: nat, m: State)
    requires steps != [] && Run(e, Fresh(name), steps[..|steps| - 1]) == Some(m) && Inv(e, m)
    requires Next(e, m, steps[|steps| - 1]).Some? && StandsSo(e, name, steps[..|steps| - 1], pid, m)
    ensures StandsSo(e, name, steps, pid, Next(e, m, steps[|steps| - 1]).value)
  {
    var n := |steps| - 1;
    var s := Next(e, m, steps[n]).value;
    OwnSnoc(e, name, steps, pid);
    if pid in s.procs && Changes(s.procs[pid].op) {
      StandingStep(e, m, steps[n], pid, HasRenamed(e, name, steps[..n], pid), HasFailedLate(e, name, steps[..n], pid));
    }
  }

  lemma {:induction false} StandingOver(e: Primitives, name: string, steps: seq<Step>, pid: nat)
    requires Run(e, Fresh(name), steps).Some?
    ensures StandsSo(e, name, steps, pid, Run(e, Fresh(name), steps).value)
    decreases |steps|
  {
    if steps != [] {
      var n := |steps| - 1;
      StandingOver(e, name, steps[..n], pid);
      FreshRun(e, name, steps[..n]);
      StandsOn(e, name, steps, pid, Run(e, Fresh(name), steps[..n]).value);
    }
  }

  // ---- What a rename has done ----

  /** Version v of the history is the effect of the operation. */
  ghost predicate MadeBy(e: Primitives, h: seq<seq<Key>>, v: nat, op: Op) {
    match op
    case Issue(raw) => exists k :: IssuedAt(e, h, v, k) && k.keyLabel == TrimSpace(raw)
    case Revoke(id) => RevokedAt(h, v, id)
    case _ => false
  }

  lemma MadeStays(e: Primitives, h: seq<seq<Key>>, h': seq<seq<Key>>, v: nat, op: Op)
    requires MadeBy(e, h, v, op) && |h| <= |h'| && h'[..|h|] == h
    ensures MadeBy(e, h', v, op)
  {
    assert h'[v] == h'[..|h|][v] && h'[v - 1] == h'[..|h|][v - 1];
    if op.Issue? {
      var k :| IssuedAt(e, h, v, k) && k.keyLabel == TrimSpace(op.rawLabel);
      assert IssuedAt(e, h', v, k);
    }
  }

  lemma RenameMakes(e: Primitives, s: State, step: Step, pid: nat)
    requires Inv(e, s) && Next(e, s, step).Some? && Renames(s, step, pid)
    requires s.procs[pid].op.Issue? || s.procs[pid].op.Revoke?
    ensures MadeBy(e, Hist(Next(e, s, step).value.disk), |Hist(s.disk)|, s.procs[pid].op)
  {
    assert ProcOk(e, s.name, s.disk, s.acks, pid, s.procs[pid]);
    PublishEffect(e, s, pid, step.draw);
  }

  ghost predicate IsMade(e: Primitives, s: State, pid: nat) {
    pid in s.procs && exists v: nat :: MadeBy(e, Hist(s.disk), v, s.procs[pid].op)
  }

  lemma MadeStep(e: Primitives, s: State, step: Step, pid: nat)
    requires Inv(e, s) && Next(e, s, step).Some? && !Ends(step, pid) && IsMade(e, s, pid)
    ensures IsMade(e, Next(e, s, step).value, pid)
  {
    StepHistory(e, s, step);
    var v: nat :| MadeBy(e, Hist(s.disk), v, s.procs[pid].op);
    var h, h' := Hist(s.disk), Hist(Next(e, s, step).value.disk);
    assert h[..|h|] == h;
    MadeStays(e, h, h', v, s.procs[pid].op);
  }

  /** A change whose rename was made is in the history. */
  lemma {:induction false} RenamedIsMade(e: Primitives, name: string, steps: seq<Step>, pid: nat)
    requires Run(e, Fresh(name), steps).Some? && HasRenamed(e, name, steps, pid)
    requires var s := Run(e, Fresh(name), steps).value;
             pid in s.procs && Changes(s.procs[pid].op)
    ensures IsMade(e, Run(e, Fresh(name), steps).value, pid)
    decreases |steps|
  {
    var n := |steps| - 1;
    var m := Run(e, Fresh(name), steps[..n]).value;
    FreshRun(e, name, steps[..n]);
    OwnSnoc(e, name, steps, pid);
    if Renames(m, steps[n], pid) {
      RenameMakes(e, m, steps[n], pid);
    } else {
      StandingOver(e, name, steps[..n], pid);
      RenamedIsMade(e, name, steps[..n], pid);
      MadeStep(e, m, steps[n], pid);
    }
  }

  /** A call of IssueKey or RevokeKey that returns an error has changed the keys if and only if its failure came
      after its rename; then its change is in the history, and otherwise it never renamed a file. */
  lemma FailedCallsCommitExactly(e: Primitives, name: string, steps: seq<Step>, pid: nat, error: Error)
    requires Run(e, Fresh(name), steps).Some?
    requires var s := Run(e, Fresh(name), steps).value;
             pid in s.procs && Changes(s.procs[pid].op) && FailsWith(s.procs[pid], error)
    ensures HasRenamed(e, name, steps, pid) <==> HasFailedLate(e, name, steps, pid)
    ensures HasFailedLate(e, name, steps, pid) ==> IsMade(e, Run(e, Fresh(name), steps).value, pid)
  {
    StandingOver(e, name, steps, pid);
    if HasRenamed(e, name, steps, pid) {
      RenamedIsMade(e, name, steps, pid);
    }
  }
}
