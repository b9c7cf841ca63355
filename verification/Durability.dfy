/** Which directory syncs a namespace needs in order to outlive a power loss. A call of Init that finds
    both files in place reports success without one of its own. */
module Durability {
  import opened Protocol
  import opened KeyList
  import opened Invariant
  import opened Preservation
  import opened Guarantees
  import opened Convergence

  // ---- Runs ----

  lemma {:induction false} RunAppend(e: Primitives, s: State, first: seq<Step>, more: seq<Step>)
    requires Run(e, s, first).Some?
    ensures Run(e, s, first + more) == Run(e, Run(e, s, first).value, more)
    decreases |more|
  {
    var all := first + more;
    if more == [] {
      assert all == first;
    } else {
      var n := |more| - 1;
      assert all[..|all| - 1] == first + more[..n];
      RunAppend(e, s, first, more[..n]);
    }
  }

  lemma FreshRun(e: Primitives, name: string, steps: seq<Step>)
    requires Run(e, Fresh(name), steps).Some?
    ensures Run(e, Fresh(name), steps).value.name == name
    ensures Reachable(e, Run(e, Fresh(name), steps).value) && Inv(e, Run(e, Fresh(name), steps).value)
  {
    RunName(e, Fresh(name), steps);
    FreshInv(e, name);
    RunInv(e, Fresh(name), steps);
  }

  lemma {:induction false} RunName(e: Primitives, s: State, steps: seq<Step>)
    requires Run(e, s, steps).Some?
    ensures Run(e, s, steps).value.name == s.name
    decreases |steps|
  {
    if steps != [] {
      RunName(e, s, steps[..|steps| - 1]);
    }
  }

  // ---- What a step makes durable ----

  /** A call syncs the directory when it goes on from its rename; and what a power loss has left stays. */
  predicate SyncsNamespace(s: State, step: Step) {
    match step
    case Advance(pid, _) => pid in s.procs && s.procs[pid].pc.Renamed? && s.disk.nsVers != []
    case PowerLoss(nsKeep, _, _, _) => nsKeep > 0
    case _ => false
  }

  predicate SyncsKeys(s: State, step: Step) {
    match step
    case Advance(pid, _) => pid in s.procs && s.procs[pid].pc.Renamed? && s.disk.keyVers != []
    case PowerLoss(_, keyKeep, _, _) => keyKeep > 0
    case _ => false
  }

  predicate SyncsBoth(s: State, step: Step) {
    SyncsNamespace(s, step) && SyncsKeys(s, step)
  }

  predicate NamespaceSyncedAt(e: Primitives, name: string, steps: seq<Step>, j: int) {
    0 <= j < |steps| && Run(e, Fresh(name), steps[..j]).Some? && SyncsNamespace(Run(e, Fresh(name), steps[..j]).value, steps[j])
  }

  predicate BothSyncedAt(e: Primitives, name: string, steps: seq<Step>, j: int) {
    0 <= j < |steps| && Run(e, Fresh(name), steps[..j]).Some? && SyncsBoth(Run(e, Fresh(name), steps[..j]).value, steps[j])
  }

  /** Some step of the run synced the directory when it held namespace.json. */
  ghost predicate NamespaceSynced(e: Primitives, name: string, steps: seq<Step>) {
    exists j :: NamespaceSyncedAt(e, name, steps, j)
  }

  /** Some step of the run synced the directory when it held both files. */
  ghost predicate BothSynced(e: Primitives, name: string, steps: seq<Step>) {
    exists j :: BothSyncedAt(e, name, steps, j)
  }

  lemma SyncedBefore(e: Primitives, name: string, steps: seq<Step>, n: nat, j: int)
    requires 0 <= j < n <= |steps|
    ensures NamespaceSyncedAt(e, name, steps[..n], j) <==> NamespaceSyncedAt(e, name, steps, j)
    ensures BothSyncedAt(e, name, steps[..n], j) <==> BothSyncedAt(e, name, steps, j)
  {
    assert steps[..n][..j] == steps[..j] && steps[..n][j] == steps[j];
  }

  lemma SyncedSnoc(e: Primitives, name: string, steps: seq<Step>)
    requires steps != [] && Run(e, Fresh(name), steps[..|steps| - 1]).Some?
    ensures var n := |steps| - 1;
            var m := Run(e, Fresh(name), steps[..n]).value;
            && (NamespaceSynced(e, name, steps) <==> NamespaceSynced(e, name, steps[..n]) || SyncsNamespace(m, steps[n]))
            && (BothSynced(e, name, steps) <==> BothSynced(e, name, steps[..n]) || SyncsBoth(m, steps[n]))
  {
    var n := |steps| - 1;
    forall j | 0 <= j < n
      ensures NamespaceSyncedAt(e, name, steps[..n], j) <==> NamespaceSyncedAt(e, name, steps, j)
      ensures BothSyncedAt(e, name, steps[..n], j) <==> BothSyncedAt(e, name, steps, j)
    {
      SyncedBefore(e, name, steps, n, j);
    }
    assert NamespaceSyncedAt(e, name, steps, n) <==> SyncsNamespace(Run(e, Fresh(name), steps[..n]).value, steps[n]);
    assert BothSyncedAt(e, name, steps, n) <==> SyncsBoth(Run(e, Fresh(name), steps[..n]).value, steps[n]);
  }

  lemma DurabilityMoves(e: Primitives, s: State, step: Step)
    requires Inv(e, s) && Next(e, s, step).Some?
    ensures var d := Next(e, s, step).value.disk;
            && (d.nsDur > 0 <==> s.disk.nsDur > 0 || SyncsNamespace(s, step))
            && (d.keyDur > 0 <==> s.disk.keyDur > 0 || SyncsKeys(s, step))
  {
    if step.Advance? {
      var p := s.procs[step.pid];
      assert ProcOk(e, s.name, s.disk, s.acks, step.pid, p);
      NextMoves(e, s, step.pid, step.draw);
      ActDurability(e, s.name, s.disk, step.pid, p, step.draw);
    }
  }

  lemma ActDurability(e: Primitives, name: string, d: Disk, pid: nat, p: Proc, draw: Draw)
    requires d.nsDur <= |d.nsVers| && d.keyDur <= |d.keyVers| && Act(e, name, d, pid, p, draw).Some?
    ensures var d' := Act(e, name, d, pid, p, draw).value.0;
            && d'.nsDur == (if p.pc.Renamed? then |d.nsVers| else d.nsDur)
            && d'.keyDur == (if p.pc.Renamed? then |d.keyVers| else d.keyDur)
  {
  }

  lemma {:induction false} NamespaceDurable(e: Primitives, name: string, steps: seq<Step>)
    requires Run(e, Fresh(name), steps).Some?
    ensures Run(e, Fresh(name), steps).value.disk.nsDur > 0 <==> NamespaceSynced(e, name, steps)
    decreases |steps|
  {
    if steps != [] {
      var n := |steps| - 1;
      var init := steps[..n];
      NamespaceDurable(e, name, init);
      FreshRun(e, name, init);
      DurabilityMoves(e, Run(e, Fresh(name), init).value, steps[n]);
      SyncedSnoc(e, name, steps);
    }
  }

  lemma BothMove(e: Primitives, s: State, step: Step)
    requires Inv(e, s) && Next(e, s, step).Some?
    ensures var d := Next(e, s, step).value.disk;
            d.nsDur > 0 && d.keyDur > 0 <==>
            (s.disk.nsDur > 0 && s.disk.keyDur > 0) || SyncsBoth(s, step)
  {
    DurabilityMoves(e, s, step);
  }

  /** Both files are durable exactly if one directory sync covered both of them. */
  lemma {:induction false} BothDurable(e: Primitives, name: string, steps: seq<Step>)
    requires Run(e, Fresh(name), steps).Some?
    ensures var d := Run(e, Fresh(name), steps).value.disk; d.nsDur > 0 && d.keyDur > 0 <==> BothSynced(e, name, steps)
    decreases |steps|
  {
    if steps != [] {
      var n := |steps| - 1;
      var init := steps[..n];
      BothDurable(e, name, init);
      FreshRun(e, name, init);
      BothMove(e, Run(e, Fresh(name), init).value, steps[n]);
      SyncedSnoc(e, name, steps);
    }
  }

  // ---- A durable namespace ----

  lemma NamespaceStep(e: Primitives, s: State, step: Step)
    requires Inv(e, s) && Next(e, s, step).Some? && s.disk.nsDur > 0
    ensures var s' := Next(e, s, step).value;
            && s'.disk.nsDur > 0 && s'.disk.nsVers != [] && NsContent(s'.disk) == NsContent(s.disk) && s'.epoch == s.epoch
            && s.inits <= s'.inits
            && (forall j :: |s.inits| <= j < |s'.inits| ==> s'.inits[j].1 == s.epoch)
  {
    DurabilityMoves(e, s, step);
    if step.PowerLoss? {
      CutNs(s.name, s.disk, step.nsKeep, step.keyKeep, step.dirKeep, step.lost);
    } else if step.Advance? && s.procs[step.pid].pc.Synced? {
      PublishHistory(e, s, step.pid, step.draw);
    } else {
      QuietHistory(e, s, step);
    }
  }

  /** Once the metadata file is durable it never changes, and every later report of Init is made in the
      same epoch. */
  lemma {:induction false} NamespaceStays(e: Primitives, s: State, more: seq<Step>)
    requires Inv(e, s) && Run(e, s, more).Some? && s.disk.nsDur > 0
    ensures var s' := Run(e, s, more).value;
            && Inv(e, s') && s'.disk.nsDur > 0 && s'.disk.nsVers != [] && NsContent(s'.disk) == NsContent(s.disk)
            && s'.epoch == s.epoch && s.inits <= s'.inits
            && (forall j :: |s.inits| <= j < |s'.inits| ==> s'.inits[j].1 == s.epoch)
    decreases |more|
  {
    if more != [] {
      var n := |more| - 1;
      NamespaceStays(e, s, more[..n]);
      NamespaceStep(e, Run(e, s, more[..n]).value, more[n]);
      NextInv(e, Run(e, s, more[..n]).value, more[n]);
    }
  }

  predicate Kept(ns: Namespace, d: Disk) {
    d.nsVers != [] && NsContent(d) == Meta(ns) && d.keyVers != []
  }

  /** A namespace whose initialisation was reported, and that has its key file, is still there after
      whatever may happen later if and only if some directory sync covered both files. */
  lemma ReportedSurvives(e: Primitives, name: string, steps: seq<Step>, i: nat)
    requires Run(e, Fresh(name), steps).Some?
    requires var s := Run(e, Fresh(name), steps).value;
             i < |s.inits| && s.inits[i].1 == s.epoch && s.disk.keyVers != []
    ensures var s := Run(e, Fresh(name), steps).value;
            (forall more :: Run(e, s, more).Some? ==> Kept(s.inits[i].0, Run(e, s, more).value.disk))
            <==> BothSynced(e, name, steps)
  {
    var s := Run(e, Fresh(name), steps).value;
    FreshRun(e, name, steps);
    BothDurable(e, name, steps);
    if BothSynced(e, name, steps) {
      forall more | Run(e, s, more).Some? ensures Kept(s.inits[i].0, Run(e, s, more).value.disk) {
        NamespaceStays(e, s, more);
        DurableForever(e, s, more);
      }
    } else {
      ThinnestCut(e, s);
    }
  }

  /** The power loss that takes all it can. */
  lemma ThinnestCut(e: Primitives, s: State)
    requires Inv(e, s) && (s.disk.nsDur == 0 || s.disk.keyDur == 0)
    ensures exists more :: Run(e, s, more).Some? && (Run(e, s, more).value.disk.nsVers == [] || Run(e, s, more).value.disk.keyVers == [])
  {
    var cut := PowerLoss(s.disk.nsDur, s.disk.keyDur, s.disk.dir, {});
    assert [cut][..0] == [];
    assert Run(e, s, [cut]) == Next(e, s, cut);
    var d := Next(e, s, cut).value.disk;
    assert d.nsVers == s.disk.nsVers[..s.disk.nsDur] && d.keyVers == s.disk.keyVers[..s.disk.keyDur];
  }

  // ---- The creation time ----

  /** Between s and s', some call of Init reported another creation time than t. */
  ghost predicate ReportsOther(s: State, s': State, t: int) {
    exists j :: |s.inits| <= j < |s'.inits| && s'.inits[j].0.createdAt != t
  }

  /** After a call of Init has reported a namespace, a later one can report another creation time if and only
      if no directory sync covered namespace.json. */
  lemma CreationTimeStable(e: Primitives, name: string, steps: seq<Step>, i: nat)
    requires Run(e, Fresh(name), steps).Some?
    requires var s := Run(e, Fresh(name), steps).value; i < |s.inits| && s.inits[i].1 == s.epoch
    ensures var s := Run(e, Fresh(name), steps).value;
            (exists more :: Run(e, s, more).Some? && ReportsOther(s, Run(e, s, more).value, s.inits[i].0.createdAt))
            <==> !NamespaceSynced(e, name, steps)
  {
    var s := Run(e, Fresh(name), steps).value;
    var t := s.inits[i].0.createdAt;
    FreshRun(e, name, steps);
    NamespaceDurable(e, name, steps);
    if NamespaceSynced(e, name, steps) {
      forall more | Run(e, s, more).Some? ensures !ReportsOther(s, Run(e, s, more).value, t) {
        NamespaceStays(e, s, more);
      }
    } else {
      var more := LoseAndReinit(e, s, t + 1);
    }
  }

  /** A power loss takes the metadata file away, and a new call of Init makes another one. */
  lemma LoseAndReinit(e: Primitives, s: State, now: int) returns (more: seq<Step>)
    requires Reachable(e, s) && s.disk.nsDur == 0 && s.disk.nsVers != []
    ensures Run(e, s, more).Some? && |Run(e, s, more).value.inits| == |s.inits| + 1
    ensures Run(e, s, more).value.inits[|s.inits|].0 == Namespace(s.name, now)
  {
    ReachableInv(e, s);
    var cut := PowerLoss(0, |s.disk.keyVers|, s.disk.dir, {});
    var m := Next(e, s, cut).value;
    ReachableNext(e, s, cut);
    var draw := Draw(seq(6, _ => 0), seq(32, _ => 0), now);
    var steps := ReinitConverges(e, m, 0, now, draw);
    var rest := [Spawn(0, Init(now))] + steps;
    more := [cut] + rest;
    RunCons(e, s, cut, rest);
  }
}
