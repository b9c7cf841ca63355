/** How long a revocation lasts. It takes effect when it renames its file, and until a directory sync has
    covered that file a power loss can undo it. */
module Revocation {
  import opened Text
  import opened Token
  import opened KeyList
  import opened History
  import opened Protocol
  import opened Invariant
  import opened Preservation
  import opened Guarantees
  import opened Durability

  /** A step that makes version v of the key file durable: a directory sync when it exists, or a power loss
      that leaves it. */
  predicate SyncsVersion(s: State, step: Step, v: nat) {
    match step
    case Advance(pid, _) => pid in s.procs && s.procs[pid].pc.Renamed? && |s.disk.keyVers| > v
    case PowerLoss(_, keyKeep, _, _) => keyKeep > v
    case _ => false
  }

  predicate VersionSyncedAt(e: Primitives, s: State, steps: seq<Step>, v: nat, j: int) {
    0 <= j < |steps| && Run(e, s, steps[..j]).Some? && SyncsVersion(Run(e, s, steps[..j]).value, steps[j], v)
  }

  ghost predicate VersionSynced(e: Primitives, s: State, steps: seq<Step>, v: nat) {
    exists j :: VersionSyncedAt(e, s, steps, v, j)
  }

  lemma VersionSyncedSnoc(e: Primitives, s: State, steps: seq<Step>, v: nat)
    requires steps != [] && Run(e, s, steps[..|steps| - 1]).Some?
    ensures var n := |steps| - 1;
            VersionSynced(e, s, steps, v) <==>
            VersionSynced(e, s, steps[..n], v) || SyncsVersion(Run(e, s, steps[..n]).value, steps[n], v)
  {
    var n := |steps| - 1;
    forall j | 0 <= j < n ensures VersionSyncedAt(e, s, steps[..n], v, j) <==> VersionSyncedAt(e, s, steps, v, j) {
      assert steps[..n][..j] == steps[..j] && steps[..n][j] == steps[j];
    }
    assert VersionSyncedAt(e, s, steps, v, n) <==> SyncsVersion(Run(e, s, steps[..n]).value, steps[n], v);
  }

  lemma VersionMoves(e: Primitives, s: State, step: Step, v: nat)
    requires Inv(e, s) && Next(e, s, step).Some?
    ensures Next(e, s, step).value.disk.keyDur > v <==> s.disk.keyDur > v || SyncsVersion(s, step, v)
  {
    if step.Advance? {
      var p := s.procs[step.pid];
      assert ProcOk(e, s.name, s.disk, s.acks, step.pid, p);
      NextMoves(e, s, step.pid, step.draw);
      ActDurability(e, s.name, s.disk, step.pid, p, step.draw);
    }
  }

  /** A version that was not durable is so exactly if some later step synced it. */
  lemma {:induction false} VersionDurable(e: Primitives, s: State, steps: seq<Step>, v: nat)
    requires Inv(e, s) && s.disk.keyDur <= v && Run(e, s, steps).Some?
    ensures Run(e, s, steps).value.disk.keyDur > v <==> VersionSynced(e, s, steps, v)
    decreases |steps|
  {
    if steps != [] {
      var n := |steps| - 1;
      VersionDurable(e, s, steps[..n], v);
      RunInv(e, s, steps[..n]);
      VersionMoves(e, Run(e, s, steps[..n]).value, steps[n], v);
      VersionSyncedSnoc(e, s, steps, v);
    }
  }

  // ---- What happens to a version ----

  /** No power loss takes version v away. */
  predicate Spares(steps: seq<Step>, v: nat) {
    forall j :: 0 <= j < |steps| && steps[j].PowerLoss? ==> steps[j].keyKeep > v
  }

  lemma VersionStep(e: Primitives, s: State, step: Step, v: nat)
    requires Inv(e, s) && Next(e, s, step).Some? && v < |Hist(s.disk)| && (step.PowerLoss? ==> step.keyKeep > v)
    ensures var h, h' := Hist(s.disk), Hist(Next(e, s, step).value.disk); v < |h'| && h'[..v + 1] == h[..v + 1]
  {
    StepHistory(e, s, step);
    if step.PowerLoss? {
      CutHist(s.disk, step.nsKeep, step.keyKeep, step.dirKeep, step.lost);
    }
  }

  lemma {:induction false} VersionStays(e: Primitives, s: State, steps: seq<Step>, v: nat)
    requires Inv(e, s) && Run(e, s, steps).Some? && v < |Hist(s.disk)| && Spares(steps, v)
    ensures var h, h' := Hist(s.disk), Hist(Run(e, s, steps).value.disk); v < |h'| && h'[..v + 1] == h[..v + 1]
    decreases |steps|
  {
    if steps != [] {
      var n := |steps| - 1;
      VersionStays(e, s, steps[..n], v);
      RunInv(e, s, steps[..n]);
      VersionStep(e, Run(e, s, steps[..n]).value, steps[n], v);
    }
  }

  lemma SparesSnoc(steps: seq<Step>, v: nat)
    requires steps != []
    ensures var n := |steps| - 1; Spares(steps, v) <==> Spares(steps[..n], v) && (steps[n].PowerLoss? ==> steps[n].keyKeep > v)
  {
    var n := |steps| - 1;
    assert steps == steps[..n] + [steps[n]];
  }

  lemma DurableStays(e: Primitives, s: State, step: Step, v: nat)
    requires Inv(e, s) && Next(e, s, step).Some? && s.disk.keyDur > v
    ensures Next(e, s, step).value.disk.keyDur > v && (step.PowerLoss? ==> step.keyKeep > v)
  {
    VersionMoves(e, s, step, v);
  }

  /** No power loss can take a durable version away. */
  lemma {:induction false} DurableIsSpared(e: Primitives, s: State, steps: seq<Step>, v: nat)
    requires Inv(e, s) && Run(e, s, steps).Some? && s.disk.keyDur > v
    ensures Spares(steps, v) && Run(e, s, steps).value.disk.keyDur > v
    decreases |steps|
  {
    if steps != [] {
      var n := |steps| - 1;
      DurableIsSpared(e, s, steps[..n], v);
      RunInv(e, s, steps[..n]);
      DurableStays(e, Run(e, s, steps[..n]).value, steps[n], v);
      SparesSnoc(steps, v);
    }
  }

  lemma SameRevocation(h: seq<seq<Key>>, h': seq<seq<Key>>, v: nat, id: string)
    requires v < |h| && v < |h'| && h'[..v + 1] == h[..v + 1] && RevokedAt(h, v, id)
    ensures RevokedAt(h', v, id)
  {
    assert h'[v] == h'[..v + 1][v] && h[v] == h[..v + 1][v];
    assert h'[v - 1] == h'[..v + 1][v - 1] && h[v - 1] == h[..v + 1][v - 1];
  }

  // ---- Revocations ----

  /** The step with which a call renames the file of its revocation into place. */
  ghost predicate Revokes(e: Primitives, s: State, step: Step, id: string) {
    && Reachable(e, s) && step.Advance? && Next(e, s, step).Some?
    && s.procs[step.pid].pc.Synced? && s.procs[step.pid].op == Revoke(id)
  }

  lemma RevokedNow(e: Primitives, s: State, step: Step, id: string)
    requires Revokes(e, s, step, id)
    ensures var s' := Next(e, s, step).value;
            && Inv(e, s') && |Hist(s'.disk)| == |Hist(s.disk)| + 1 && s'.disk.keyDur <= |Hist(s.disk)|
            && Hist(s'.disk)[..|Hist(s.disk)|] == Hist(s.disk) && RevokedAt(Hist(s'.disk), |Hist(s.disk)|, id)
  {
    ReachableInv(e, s);
    NextInv(e, s, step);
    assert ProcOk(e, s.name, s.disk, s.acks, step.pid, s.procs[step.pid]);
    PublishHistory(e, s, step.pid, step.draw);
    PublishEffect(e, s, step.pid, step.draw);
  }

  /** A revocation is in the history from its rename on, as long as no power loss takes its version away. It
      will be there in every future if and only if some step since its rename synced that version. */
  lemma RevocationLasts(e: Primitives, s: State, step: Step, id: string, more: seq<Step>)
    requires Revokes(e, s, step, id) && Run(e, Next(e, s, step).value, more).Some?
    requires Spares(more, |Hist(s.disk)|)
    ensures var v, s1 := |Hist(s.disk)|, Next(e, s, step).value;
            var s2 := Run(e, s1, more).value;
            && RevokedAt(Hist(s2.disk), v, id)
            && ((forall later :: Run(e, s2, later).Some? ==> RevokedAt(Hist(Run(e, s2, later).value.disk), v, id)) <==>
                VersionSynced(e, s1, more, v))
  {
    var v, s1 := |Hist(s.disk)|, Next(e, s, step).value;
    var s2 := Run(e, s1, more).value;
    RevokedNow(e, s, step, id);
    RunInv(e, s1, more);
    VersionStays(e, s1, more, v);
    SameRevocation(Hist(s1.disk), Hist(s2.disk), v, id);
    VersionDurable(e, s1, more, v);
    if s2.disk.keyDur > v {
      forall later | Run(e, s2, later).Some? ensures RevokedAt(Hist(Run(e, s2, later).value.disk), v, id) {
        DurableIsSpared(e, s2, later, v);
        VersionStays(e, s2, later, v);
        SameRevocation(Hist(s2.disk), Hist(Run(e, s2, later).value.disk), v, id);
      }
    } else {
      CutBelow(e, s2, v);
    }
  }

  /** The power loss that leaves v versions of the key file, and takes nothing else that it need not. */
  function CutTo(s: State, v: nat): Step {
    PowerLoss(|s.disk.nsVers|, v, s.disk.dir, {})
  }

  lemma CutLeaves(e: Primitives, s: State, v: nat)
    requires Inv(e, s) && s.disk.keyDur <= v <= |s.disk.keyVers|
    ensures Next(e, s, CutTo(s, v)).Some? && Hist(Next(e, s, CutTo(s, v)).value.disk) == Hist(s.disk)[..v]
  {
    CutHist(s.disk, |s.disk.nsVers|, v, s.disk.dir, {});
  }

  lemma CutBelow(e: Primitives, s: State, v: nat)
    requires Inv(e, s) && s.disk.keyDur <= v
    ensures exists later :: Run(e, s, later).Some? && |Hist(Run(e, s, later).value.disk)| <= v
  {
    var cut := CutTo(s, s.disk.keyDur);
    assert [cut][..0] == [];
    assert Run(e, s, [cut]) == Next(e, s, cut);
    CutLeaves(e, s, s.disk.keyDur);
  }

  lemma CurrentIsLast(d: Disk)
    requires d.keyVers != []
    ensures Current(d) == Hist(d)[|d.keyVers| - 1]
  {
  }

  /** A power loss right after the rename brings the revoked keys back, and a reader that opens the file later
      gets the answer from before the revocation. */
  lemma RevocationCanBeUndone(e: Primitives, s: State, step: Step, id: string, token: string)
    requires Revokes(e, s, step, id)
    ensures var s1 := Next(e, s, step).value;
            var cut := CutTo(s1, |Hist(s.disk)|);
            && Verdict(e, Current(s1.disk), id, token) == None
            && Next(e, s1, cut).Some?
            && HasId(Current(Next(e, s1, cut).value.disk), id)
            && Verdict(e, Current(Next(e, s1, cut).value.disk), id, token) == Verdict(e, Current(s.disk), id, token)
  {
    var s1, v := Next(e, s, step).value, |Hist(s.disk)|;
    RevokedNow(e, s, step, id);
    CutLeaves(e, s1, v);
    Undone(e, s.disk, s1.disk, Next(e, s1, CutTo(s1, v)).value.disk, id, token);
  }

  lemma Undone(e: Primitives, d: Disk, d1: Disk, d2: Disk, id: string, token: string)
    requires var v := |Hist(d)|; |Hist(d1)| == v + 1 && Hist(d1)[..v] == Hist(d) && Hist(d2) == Hist(d) && RevokedAt(Hist(d1), v, id)
    ensures Verdict(e, Current(d1), id, token) == None
    ensures HasId(Current(d2), id) && Verdict(e, Current(d2), id, token) == Verdict(e, Current(d), id, token)
  {
    CurrentIsLast(d);
    CurrentIsLast(d1);
    CurrentIsLast(d2);
    var v := |Hist(d)|;
    assert Hist(d)[v - 1] == Hist(d1)[..v][v - 1];
    RemovedIsRejected(e, Hist(d1)[v - 1], id, token);
  }

  lemma RemovedIsRejected(e: Primitives, keys: seq<Key>, id: string, token: string)
    ensures Verdict(e, Without(keys, id), id, token) == None
  {
    LookupWithout(keys, id, id);
  }

  // ---- Readers ----

  /** The call has not opened the key file before the version came to be, or has seen it. */
  predicate OpensFrom(s: State, q: nat, v: nat) {
    q in s.procs && s.procs[q].op.Auth? ==>
      match s.procs[q].pc
      case Opened(_, at) => at >= v
      case Done(AuthDone(at, _)) => at >= v
      case _ => true
  }

  lemma OpensStep(e: Primitives, s: State, step: Step, q: nat, v: nat)
    requires Inv(e, s) && Next(e, s, step).Some? && v < |Hist(s.disk)| && OpensFrom(s, q, v)
    ensures OpensFrom(Next(e, s, step).value, q, v)
  {
  }

  lemma {:induction false} OpensLater(e: Primitives, s: State, steps: seq<Step>, q: nat, v: nat)
    requires Inv(e, s) && Run(e, s, steps).Some? && v < |Hist(s.disk)| && Spares(steps, v) && OpensFrom(s, q, v)
    ensures OpensFrom(Run(e, s, steps).value, q, v)
    decreases |steps|
  {
    if steps != [] {
      var n := |steps| - 1;
      OpensLater(e, s, steps[..n], q, v);
      VersionStays(e, s, steps[..n], v);
      RunInv(e, s, steps[..n]);
      OpensStep(e, Run(e, s, steps[..n]).value, steps[n], q, v);
    }
  }

  /** Every call of Authenticate that had not yet opened the key file when a revocation renamed its own rejects
      each token with the ID, until the ID is issued again or a power loss takes the revocation away. */
  lemma RevokedIsRejected(e: Primitives, s: State, step: Step, id: string, more: seq<Step>, q: nat)
    requires Revokes(e, s, step, id) && Run(e, Next(e, s, step).value, more).Some?
    requires var s1 := Next(e, s, step).value; q in s1.procs ==> s1.procs[q].pc.Start? || s1.procs[q].pc.Checked?
    requires var s2 := Run(e, Next(e, s, step).value, more).value;
             && q in s2.procs && s2.procs[q].op.Auth? && StoreKeyId(s2.procs[q].op.token) == Some(id)
             && s2.procs[q].pc.Done? && s2.procs[q].pc.out.AuthDone?
             && forall i, k :: |Hist(s.disk)| < i <= s2.procs[q].pc.out.at && IssuedAt(e, Hist(s2.disk), i, k) ==> k.id != id
    requires Spares(more, |Hist(s.disk)|)
    ensures Run(e, Next(e, s, step).value, more).value.procs[q].pc.out.verdict == None
  {
    var v, s1 := |Hist(s.disk)|, Next(e, s, step).value;
    var s2 := Run(e, s1, more).value;
    RevokedNow(e, s, step, id);
    RevocationLasts(e, s, step, id, more);
    OpensLater(e, s1, more, q, v);
    ReachableNext(e, s, step);
    ReachableRun(e, s1, more);
    RevocationIsImmediate(e, s2, q, v);
  }

  lemma {:induction false} ReachableRun(e: Primitives, s: State, steps: seq<Step>)
    requires Reachable(e, s) && Run(e, s, steps).Some?
    ensures Reachable(e, Run(e, s, steps).value)
    decreases |steps|
  {
    if steps != [] {
      ReachableRun(e, s, steps[..|steps| - 1]);
      ReachableNext(e, Run(e, s, steps[..|steps| - 1]).value, steps[|steps| - 1]);
    }
  }

  /** A revocation that was reported as a success stays in the history whatever happens later. */
  lemma ReportedRevocationHolds(e: Primitives, s: State, i: nat, later: seq<Step>)
    requires Reachable(e, s) && i < |s.acks| && s.acks[i].RevokeOk? && Run(e, s, later).Some?
    ensures RevokedAt(Hist(Run(e, s, later).value.disk), s.acks[i].at, s.acks[i].id)
  {
    ReachableInv(e, s);
    ReportsAreKept(e, s, i);
    var v := s.acks[i].at;
    DurableIsSpared(e, s, later, v);
    VersionStays(e, s, later, v);
    SameRevocation(Hist(s.disk), Hist(Run(e, s, later).value.disk), v, s.acks[i].id);
  }
}
