/** Where a reported key comes from: the label of its call, and the bytes and the time of the step in which the
    call decided. */
module Draws {
  import opened Text
  import opened Token
  import opened KeyList
  import opened Protocol
  import opened Invariant
  import opened Preservation

  /** The key and the token are those of the draw, spelled out. */
  predicate FromDraw(e: Primitives, raw: string, draw: Draw, k: Key, token: string) {
    && ValidDraw(draw) && k.createdAt == draw.now && k.keyLabel == TrimSpace(raw)
    && k.id == "k_" + HexEncode(draw.id)
    && token == "cqk_k_" + HexEncode(draw.id) + "_" + B64Encode(draw.secret)
    && k.digest == HexEncode(e.sha256(token))
  }

  /** The step is the one in which a call of IssueKey decided on the key. */
  predicate Makes(e: Primitives, s: State, step: Step, k: Key, token: string) {
    && step.Advance? && step.pid in s.procs && s.procs[step.pid].op.Issue? && s.procs[step.pid].pc.Locked?
    && FromDraw(e, s.procs[step.pid].op.rawLabel, step.draw, k, token)
  }

  predicate MadeAt(e: Primitives, name: string, steps: seq<Step>, k: Key, token: string, j: int) {
    0 <= j < |steps| && Run(e, Fresh(name), steps[..j]).Some? && Makes(e, Run(e, Fresh(name), steps[..j]).value, steps[j], k, token)
  }

  ghost predicate WasMade(e: Primitives, name: string, steps: seq<Step>, k: Key, token: string) {
    exists j :: MadeAt(e, name, steps, k, token, j)
  }

  /** The key that a call is about to write, has written or reports. */
  function Carried(p: Proc): Option<Outcome> {
    match p.pc
    case Decided(w) => Some(w.res)
    case Created(w, _) => Some(w.res)
    case Written(w, _) => Some(w.res)
    case Synced(w, _) => Some(w.res)
    case Renamed(w) => Some(w.res)
    case Unlocking(out) => Some(out)
    case Done(out) => Some(out)
    case _ => None
  }

  predicate CarriesKey(p: Proc) {
    Carried(p).Some? && Carried(p).value.IssueOk?
  }

  ghost predicate AllMade(e: Primitives, name: string, steps: seq<Step>, s: State) {
    && (forall q :: q in s.procs && CarriesKey(s.procs[q]) ==>
          WasMade(e, name, steps, Carried(s.procs[q]).value.key, Carried(s.procs[q]).value.token))
    && (forall i :: 0 <= i < |s.acks| && s.acks[i].IssueOk? ==> WasMade(e, name, steps, s.acks[i].key, s.acks[i].token))
  }

  lemma MadeAtBefore(e: Primitives, name: string, init: seq<Step>, steps: seq<Step>, k: Key, token: string, j: int)
    requires MadeAt(e, name, init, k, token, j) && |init| <= |steps| && init == steps[..|init|]
    ensures MadeAt(e, name, steps, k, token, j)
  {
    assert init[..j] == steps[..j] && init[j] == steps[j];
  }

  lemma MadeBefore(e: Primitives, name: string, steps: seq<Step>, k: Key, token: string)
    requires steps != [] && WasMade(e, name, steps[..|steps| - 1], k, token)
    ensures WasMade(e, name, steps, k, token)
  {
    var init := steps[..|steps| - 1];
    var j :| MadeAt(e, name, init, k, token, j);
    MadeAtBefore(e, name, init, steps, k, token, j);
  }

  lemma LockedMakes(e: Primitives, name: string, d: Disk, op: Op, draw: Draw)
    requires ValidDraw(draw)
    ensures var pc := ActLocked(e, name, d, op, draw);
            pc.Decided? && pc.w.res.IssueOk? ==> op.Issue? && FromDraw(e, op.rawLabel, draw, pc.w.res.key, pc.w.res.token)
  {
    if op.Issue? {
      RecordMatches(e, draw.id, draw.secret, TrimSpace(op.rawLabel), draw.now);
      PrintedKeyId(draw.id, draw.secret);
    }
  }

  /** A call that comes to carry a key decides on it in that step. */
  lemma CarriesLater(e: Primitives, name: string, d: Disk, pid: nat, p: Proc, draw: Draw)
    requires ValidDraw(draw) && Act(e, name, d, pid, p, draw).Some?
    requires p.pc.Settled? ==> p.op.Init?
    ensures var p' := p.(pc := Act(e, name, d, pid, p, draw).value.1);
            CarriesKey(p') ==>
              || (CarriesKey(p) && Carried(p) == Carried(p'))
              || (p.op.Issue? && p.pc.Locked? && FromDraw(e, p.op.rawLabel, draw, Carried(p').value.key, Carried(p').value.token))
  {
    if p.pc.Locked? {
      LockedMakes(e, name, d, p.op, draw);
    }
  }

  lemma StepMakes(e: Primitives, s: State, step: Step, q: nat)
    requires Inv(e, s) && Next(e, s, step).Some? && q in Next(e, s, step).value.procs
    requires CarriesKey(Next(e, s, step).value.procs[q])
    ensures var out := Carried(Next(e, s, step).value.procs[q]).value;
            || (q in s.procs && CarriesKey(s.procs[q]) && Carried(s.procs[q]).value == out)
            || Makes(e, s, step, out.key, out.token)
  {
    if step.Advance? && step.pid == q {
      assert ProcOk(e, s.name, s.disk, s.acks, q, s.procs[q]);
      NextMoves(e, s, q, step.draw);
      CarriesLater(e, s.name, s.disk, q, s.procs[q], step.draw);
    }
  }

  lemma StepReports(e: Primitives, s: State, step: Step, i: nat)
    requires Next(e, s, step).Some? && i < |Next(e, s, step).value.acks| && Next(e, s, step).value.acks[i].IssueOk?
    ensures var out := Next(e, s, step).value.acks[i];
            || (i < |s.acks| && s.acks[i] == out)
            || (step.Advance? && step.pid in s.procs && CarriesKey(s.procs[step.pid]) && Carried(s.procs[step.pid]).value == out)
  {
  }

  lemma {:induction false} AllWereMade(e: Primitives, name: string, steps: seq<Step>)
    requires Run(e, Fresh(name), steps).Some?
    ensures Inv(e, Run(e, Fresh(name), steps).value) && AllMade(e, name, steps, Run(e, Fresh(name), steps).value)
    decreases |steps|
  {
    if steps == [] {
      FreshInv(e, name);
    } else {
      var n := |steps| - 1;
      AllWereMade(e, name, steps[..n]);
      MadeStep(e, name, steps, Run(e, Fresh(name), steps[..n]).value);
    }
  }

  lemma MadeStep(e: Primitives, name: string, steps: seq<Step>, m: State)
    requires steps != [] && Run(e, Fresh(name), steps[..|steps| - 1]) == Some(m) && Inv(e, m)
    requires AllMade(e, name, steps[..|steps| - 1], m) && Next(e, m, steps[|steps| - 1]).Some?
    ensures Inv(e, Next(e, m, steps[|steps| - 1]).value) && AllMade(e, name, steps, Next(e, m, steps[|steps| - 1]).value)
  {
    var n := |steps| - 1;
    var s := Next(e, m, steps[n]).value;
    NextInv(e, m, steps[n]);
    forall q | q in s.procs && CarriesKey(s.procs[q])
      ensures WasMade(e, name, steps, Carried(s.procs[q]).value.key, Carried(s.procs[q]).value.token)
    {
      var out := Carried(s.procs[q]).value;
      StepMakes(e, m, steps[n], q);
      if q in m.procs && CarriesKey(m.procs[q]) && Carried(m.procs[q]).value == out {
        MadeBefore(e, name, steps, out.key, out.token);
      } else {
        assert MadeAt(e, name, steps, out.key, out.token, n);
      }
    }
    forall i | 0 <= i < |s.acks| && s.acks[i].IssueOk? ensures WasMade(e, name, steps, s.acks[i].key, s.acks[i].token) {
      StepReports(e, m, steps[n], i);
      MadeBefore(e, name, steps, s.acks[i].key, s.acks[i].token);
    }
  }

  /** Over every run, each key that was reported as issued carries the label its call was given, the time and the
      bytes of the step in which the call decided, and the digest of the token that was reported with it. */
  lemma ReportedKeysWereDrawn(e: Primitives, name: string, steps: seq<Step>, i: nat)
    requires Run(e, Fresh(name), steps).Some?
    requires var s := Run(e, Fresh(name), steps).value; i < |s.acks| && s.acks[i].IssueOk?
    ensures var out := Run(e, Fresh(name), steps).value.acks[i]; WasMade(e, name, steps, out.key, out.token)
  {
    AllWereMade(e, name, steps);
  }
}
