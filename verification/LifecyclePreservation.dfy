/** Every step of every operation keeps the invariant. */
module LifecyclePreservation {
  import opened Core
  import opened Lifecycle
  import opened LifecycleInvariant

  // ---------------------------------------------------------------------------------- rely

  lemma PendingStable(s: State, t: State, me: Option<OpId>, o: OpId, batch: seq<SandboxId>)
    requires Rely(s, t, me) && Some(o) != me && PendingBatch(s, o, batch)
    ensures PendingBatch(t, o, batch)
  {
    forall i | 0 <= i < |batch| ensures Pending(t, o, batch[i]) {
      assert Pending(s, o, batch[i]) && RelyId(s, t, me, batch[i]);
    }
  }

  lemma PurposeStable(s: State, t: State, me: Option<OpId>, o: OpId, p: Purpose, id: SandboxId)
    requires Rely(s, t, me) && Some(o) != me && IdsOk(s) && RecsOk(s)
    requires id in s.born && s.born[id] == o && PurposeOk(s, o, p, id)
    ensures PurposeOk(t, o, p, id)
  {
    assert RelyId(s, t, me, id);
    match p {
      case ForCreate =>
      case ForClone(snap, want, done) =>
        PendingStable(s, t, me, o, done);
        assert RelyArt(s, t, me, snap);
      case ForRollback(target, src, snap) =>
        assert RelyArt(s, t, me, snap);
        SourceStable(s, t, me, o, target, src);
        ReplacementStable(s, t, me, o, target, src, id);
    }
  }

  lemma FetchedStable(s: State, t: State, me: Option<OpId>, id: SandboxId, v: VmId)
    requires Rely(s, t, me) && IdsOk(s) && RecsOk(s) && FetchedUnder(s, id, v)
    ensures FetchedUnder(t, id, v)
  {
    assert RelyRec(s, t, me, v) && RelyVm(s, t, me, v);
    if id in s.internal {
      assert RelyId(s, t, me, id);
    }
  }

  lemma SourceStable(s: State, t: State, me: Option<OpId>, o: OpId, target: SandboxId, src: VmId)
    requires Rely(s, t, me) && Some(o) != me && IdsOk(s) && RecsOk(s) && SourceHeld(s, o, target, src)
    ensures SourceHeld(t, o, target, src)
    ensures t.records[src] == s.records[src]
  {
    FetchedStable(s, t, me, target, src);
    assert RelyRec(s, t, me, src) && RelyVm(s, t, me, src);
  }

  lemma ReplacementStable(s: State, t: State, me: Option<OpId>, o: OpId, target: SandboxId, src: VmId, repl: SandboxId)
    requires Rely(s, t, me) && Some(o) != me && ReplacementOf(s, o, target, src, repl)
    requires LockedBy(s, src, o)
    ensures ReplacementOf(t, o, target, src, repl)
    ensures MappedOrRetired(s, repl) ==> MappedOrRetired(t, repl)
  {
    assert RelyId(s, t, me, repl);
    assert RelyRec(s, t, me, src);
  }

  lemma OutcomeStable(s: State, t: State, me: Option<OpId>, o: OpId, outcome: Outcome)
    requires Rely(s, t, me) && IdsOk(s) && OutcomeOk(s, o, outcome)
    ensures OutcomeOk(t, o, outcome)
  {
    match outcome {
      case Plain(_) =>
      case CreateOk(id) => assert RelyId(s, t, me, id);
      case CloneOk(ids) =>
        forall i | 0 <= i < |ids|
          ensures ids[i] in t.born && t.born[ids[i]] == o && ids[i] in t.issued && MappedOrRetired(t, ids[i])
        {
          assert RelyId(s, t, me, ids[i]);
        }
      case CloneErr(batch) =>
        forall x | x in batch ensures x in t.retired { assert RelyId(s, t, me, x); }
      case RollbackOk(_, repl) => assert RelyId(s, t, me, repl);
      case RollbackErr(_, undone) =>
        if undone.Some? { assert RelyId(s, t, me, undone.value); }
    }
  }

  lemma LaunchStable(s: State, t: State, me: Option<OpId>, o: OpId, pc: Pc)
    requires Rely(s, t, me) && Some(o) != me && IdsOk(s) && RecsOk(s) && pc.Launch? && PcOk(s, o, pc)
    ensures PcOk(t, o, pc)
  {
    PurposeStable(s, t, me, o, pc.purpose, pc.id);
    assert RelyId(s, t, me, pc.id);
    if !pc.launch.Prepare? && !pc.launch.Return? {
      assert RelyVm(s, t, me, pc.launch.vm);
    }
  }

  lemma CauseStable(s: State, t: State, me: Option<OpId>, o: OpId, cause: Cause, id: SandboxId, phase: DeletePhase)
    requires Rely(s, t, me) && Some(o) != me && IdsOk(s) && RecsOk(s) && CauseOk(s, o, cause, id, phase)
    ensures CauseOk(t, o, cause, id, phase)
  {
    match cause {
      case Asked =>
      case UndoClone(snap, batch, todo) =>
        PendingStable(s, t, me, o, batch);
        assert RelyArt(s, t, me, snap);
        forall x | x in batch ensures x in t.retired || x in todo || x == id {
          if x in s.retired { assert RelyId(s, t, me, x); }
        }
      case UndoRollback(target, src, rekeyed) =>
        SourceStable(s, t, me, o, target, src);
        ReplacementStable(s, t, me, o, target, src, id);
        if rekeyed.Some? && phase == Remove {
          assert RelyRec(s, t, me, rekeyed.value) && RelyVm(s, t, me, rekeyed.value);
        }
    }
  }

  lemma DeleteStable(s: State, t: State, me: Option<OpId>, o: OpId, pc: Pc)
    requires Rely(s, t, me) && Some(o) != me && IdsOk(s) && RecsOk(s) && pc.Delete? && PcOk(s, o, pc)
    ensures PcOk(t, o, pc)
  {
    CauseStable(s, t, me, o, pc.cause, pc.id, pc.delete);
    if !pc.delete.Remove? {
      var v := pc.delete.vm;
      assert RelyRec(s, t, me, v) && RelyVm(s, t, me, v) && RelyId(s, t, me, pc.id);
    }
  }

  lemma ReplacingStable(s: State, t: State, me: Option<OpId>, o: OpId, target: SandboxId, src: VmId, phase: RollbackPhase)
    requires Rely(s, t, me) && Some(o) != me && IdsOk(s) && RecsOk(s) && RollbackPcOk(s, o, target, src, phase)
    requires phase.FetchReplacement? || phase.LockReplacement? || phase.RekeyReplacement? || phase.Swap?
    ensures RollbackPcOk(t, o, target, src, phase)
  {
    SourceStable(s, t, me, o, target, src);
    ReplacementStable(s, t, me, o, target, src, phase.repl);
    if !phase.FetchReplacement? {
      assert RelyRec(s, t, me, phase.vm) && RelyVm(s, t, me, phase.vm);
    }
  }

  lemma PreparingStable(s: State, t: State, me: Option<OpId>, o: OpId, target: SandboxId, src: VmId, phase: RollbackPhase)
    requires Rely(s, t, me) && Some(o) != me && IdsOk(s) && RecsOk(s) && RollbackPcOk(s, o, target, src, phase)
    requires phase.FindSnapshot? || phase.LockSnapshot? || phase.Verify? || phase.GiveUp?
    ensures RollbackPcOk(t, o, target, src, phase)
  {
    SourceStable(s, t, me, o, target, src);
    if phase.GiveUp? {
      assert RelyId(s, t, me, phase.repl);
    } else if !phase.FindSnapshot? {
      assert RelyArt(s, t, me, phase.snap);
    }
  }

  lemma EdgesStable(s: State, t: State, me: Option<OpId>, o: OpId, target: SandboxId, src: VmId, phase: RollbackPhase)
    requires Rely(s, t, me) && Some(o) != me && IdsOk(s) && RecsOk(s) && RollbackPcOk(s, o, target, src, phase)
    requires phase.LockSource? || phase.Retire?
    ensures RollbackPcOk(t, o, target, src, phase)
  {
    if phase.LockSource? {
      FetchedStable(s, t, me, target, src);
    } else {
      assert RelyId(s, t, me, phase.repl) && RelyRec(s, t, me, src) && RelyVm(s, t, me, src);
    }
  }

  lemma RollbackStable(s: State, t: State, me: Option<OpId>, o: OpId, target: SandboxId, src: VmId, phase: RollbackPhase)
    requires Rely(s, t, me) && Some(o) != me && IdsOk(s) && RecsOk(s) && RollbackPcOk(s, o, target, src, phase)
    ensures RollbackPcOk(t, o, target, src, phase)
  {
    if phase.LockSource? || phase.Retire? {
      EdgesStable(s, t, me, o, target, src, phase);
    } else if phase.FindSnapshot? || phase.LockSnapshot? || phase.Verify? || phase.GiveUp? {
      PreparingStable(s, t, me, o, target, src, phase);
    } else {
      ReplacingStable(s, t, me, o, target, src, phase);
    }
  }

  lemma CaptureStable(s: State, t: State, me: Option<OpId>, o: OpId, pc: Pc)
    requires Rely(s, t, me) && Some(o) != me && IdsOk(s) && RecsOk(s) && pc.Capture? && PcOk(s, o, pc)
    ensures PcOk(t, o, pc)
  {
    match pc.capture {
      case LockRecord => FetchedStable(s, t, me, pc.id, pc.vm);
      case PauseFirst(_) => SourceStable(s, t, me, o, pc.id, pc.vm);
      case TakeShot(_, _) => SourceStable(s, t, me, o, pc.id, pc.vm);
      case ResumeAfter(_, _, shot) =>
        SourceStable(s, t, me, o, pc.id, pc.vm);
        if shot.Some? && shot.value.lost { assert RelyId(s, t, me, pc.id); }
      case Publish(shot) =>
        assert RelyRec(s, t, me, pc.vm) && RelyVm(s, t, me, pc.vm);
        if shot.lost { assert RelyId(s, t, me, pc.id); }
    }
  }

  /** A step of somebody else keeps what `o` counts on. */
  lemma OtherStable(s: State, t: State, me: Option<OpId>, o: OpId, pc: Pc)
    requires Rely(s, t, me) && Some(o) != me && Globals(s) && PcOk(s, o, pc)
    ensures PcOk(t, o, pc)
  {
    match pc {
      case Launch(_, _, _) => LaunchStable(s, t, me, o, pc);
      case Delete(_, _, _) => DeleteStable(s, t, me, o, pc);
      case WaitClone(snap, _) => assert RelyArt(s, t, me, snap);
      case VerifyClone(snap, _) => assert RelyArt(s, t, me, snap);
      case Rollback(target, src, phase) => RollbackStable(s, t, me, o, target, src, phase);
      case Control(_, v, _) => assert RelyRec(s, t, me, v) && RelyVm(s, t, me, v);
      case Capture(_, _, _) => CaptureStable(s, t, me, o, pc);
      case InspectSnapshot(a, _) => assert RelyArt(s, t, me, a);
      case ListSnapshots(todo) =>
        forall a | a in todo ensures a in t.arts { assert RelyArt(s, t, me, a); }
      case DropSnapshot(a, _) => assert RelyArt(s, t, me, a);
      case Finished(outcome) => OutcomeStable(s, t, me, o, outcome);
    }
  }

  // ---------------------------------------------------------------------------------- one step

  lemma TameRely(s: State, o: OpId, e: Effect)
    requires RecsOk(s) && VmsOk(s) && ArtsOk(s) && IdsOk(s) && Tame(s, o, e)
    ensures Rely(s, Apply(s, o, e), Some(o))
  {
    var t := Apply(s, o, e);
    forall v | v in s.records ensures RelyRec(s, t, Some(o), v) { assert RecOk(s, v); }
    forall v | v in s.vms ensures RelyVm(s, t, Some(o), v) {
      assert VmOk(s, v);
      if v in s.records { assert RecOk(s, v); }
    }
    forall a | a in s.arts ensures RelyArt(s, t, Some(o), a) { assert ArtOk(s, a); }
    forall id | id in s.born ensures RelyId(s, t, Some(o), id) { assert IdOk(s, id); }
  }

  lemma TameIdsOk(s: State, o: OpId, e: Effect)
    requires IdsOk(s) && ArtsOk(s) && Tame(s, o, e)
    ensures IdsOk(Apply(s, o, e))
  {
    assert s.next in s.born ==> IdOk(s, s.next);
    var t := Apply(s, o, e);
    forall id | id in t.born ensures IdOk(t, id) { assert id in s.born ==> IdOk(s, id); }
  }

  lemma TameKey(s: State, o: OpId, e: Effect, k: SandboxId)
    requires Tame(s, o, e) && k in s.sandboxes && KeyOk(s, k) && IdOk(s, k) && VmOk(s, s.sandboxes[k])
    requires KeepsMark(s, Apply(s, o, e), o, k)
    ensures KeyOk(Apply(s, o, e), k)
  {
  }

  lemma TameKeys(s: State, o: OpId, e: Effect)
    requires KeysOk(s) && IdsOk(s) && VmsOk(s) && Tame(s, o, e)
    requires forall k | k in s.sandboxes :: KeepsMark(s, Apply(s, o, e), o, k)
    ensures KeysOk(Apply(s, o, e))
  {
    var t := Apply(s, o, e);
    forall k | k in t.sandboxes ensures KeyOk(t, k) {
      assert KeyOk(s, k) && IdOk(s, k) && VmOk(s, s.sandboxes[k]);
      TameKey(s, o, e, k);
    }
  }

  lemma TameRecs(s: State, o: OpId, e: Effect)
    requires RecsOk(s) && IdsOk(s) && VmsOk(s) && Tame(s, o, e)
    ensures RecsOk(Apply(s, o, e))
  {
    var t := Apply(s, o, e);
    forall v | v in t.records ensures RecOk(t, v) {
      assert RecOk(s, v) && VmOk(s, v) && IdOk(s, s.records[v].home);
    }
  }

  lemma TameVms(s: State, o: OpId, e: Effect)
    requires VmsOk(s) && Tame(s, o, e)
    ensures VmsOk(Apply(s, o, e))
  {
    var t := Apply(s, o, e);
    forall v | v in t.vms ensures VmOk(t, v) { assert v in s.vms ==> VmOk(s, v); }
  }

  lemma TameArts(s: State, o: OpId, e: Effect)
    requires ArtsOk(s) && IdsOk(s) && Tame(s, o, e)
    ensures ArtsOk(Apply(s, o, e))
  {
    var t := Apply(s, o, e);
    assert s.internal <= t.internal;
    forall a | a in t.arts ensures ArtOk(t, a) { assert a in s.arts ==> ArtOk(s, a); }
  }

  lemma TameGood(s: State, o: OpId, e: Effect)
    requires Globals(s) && Tame(s, o, e) && PcOk(Apply(s, o, e), o, e.pc)
    requires forall k | k in s.sandboxes :: KeepsMark(s, Apply(s, o, e), o, k)
    ensures GoodStep(s, Apply(s, o, e), o)
  {
    TameRely(s, o, e);
    TameIdsOk(s, o, e);
    TameKeys(s, o, e);
    TameRecs(s, o, e);
    TameVms(s, o, e);
    TameArts(s, o, e);
  }

  // ---------------------------------------------------------------------------------- tame steps

  lemma ControlTame(s: State, o: OpId, c: Choice, kind: ControlKind, v: VmId, held: bool)
    requires Prior(s, o) == Control(kind, v, held) && ControlOk(s, o, kind, v, held)
    requires ControlStep(s, o, c, kind, v, held).Some?
    ensures var e := ControlStep(s, o, c, kind, v, held).value; Tame(s, o, e) && PcOk(Apply(s, o, e), o, e.pc)
  {
  }

  lemma CaptureTame(s: State, o: OpId, c: Choice, id: SandboxId, v: VmId, phase: CapturePhase)
    requires Prior(s, o) == Capture(id, v, phase) && CaptureOk(s, o, id, v, phase) && RecOk(s, v)
    requires CaptureStep(s, o, c, id, v, phase).Some?
    ensures var e := CaptureStep(s, o, c, id, v, phase).value; Tame(s, o, e)
  {
  }

  lemma CapturePc(s: State, o: OpId, c: Choice, id: SandboxId, v: VmId, phase: CapturePhase)
    requires Prior(s, o) == Capture(id, v, phase) && CaptureOk(s, o, id, v, phase) && RecOk(s, v)
    requires CaptureStep(s, o, c, id, v, phase).Some?
    ensures var e := CaptureStep(s, o, c, id, v, phase).value; PcOk(Apply(s, o, e), o, e.pc)
  {
  }

  lemma NextIsFresh(s: State)
    requires IdsOk(s) && KeysOk(s)
    ensures s.next !in s.born && !MappedOrRetired(s, s.next) && s.next !in s.issued && s.next !in s.internal
  {
    forall id | id in s.born ensures id != s.next { assert IdOk(s, id); }
    forall k | k in s.sandboxes ensures k != s.next { assert KeyOk(s, k); }
  }

  lemma CloneTame(s: State, o: OpId, c: Choice, snap: SnapId, want: nat, held: bool)
    requires Prior(s, o) == (if held then VerifyClone(snap, want) else WaitClone(snap, want))
    requires IdsOk(s) && KeysOk(s) && PcOk(s, o, Prior(s, o)) && CloneStep(s, o, c, snap, want, held).Some?
    ensures var e := CloneStep(s, o, c, snap, want, held).value; Tame(s, o, e) && PcOk(Apply(s, o, e), o, e.pc)
  {
    NextIsFresh(s);
  }

  lemma InspectTame(s: State, o: OpId, a: SnapId, held: bool)
    requires Prior(s, o) == InspectSnapshot(a, held) && PcOk(s, o, Prior(s, o)) && InspectStep(s, o, a, held).Some?
    ensures var e := InspectStep(s, o, a, held).value; Tame(s, o, e) && PcOk(Apply(s, o, e), o, e.pc)
  {
  }

  lemma ListTame(s: State, o: OpId, todo: seq<SnapId>)
    requires Prior(s, o) == ListSnapshots(todo) && PcOk(s, o, Prior(s, o)) && ListStep(s, todo).Some?
    ensures var e := ListStep(s, todo).value; Tame(s, o, e) && PcOk(Apply(s, o, e), o, e.pc)
  {
  }

  lemma DropTame(s: State, o: OpId, c: Choice, a: SnapId, dropped: bool)
    requires Prior(s, o) == DropSnapshot(a, dropped) && PcOk(s, o, Prior(s, o)) && DropStep(s, c, a, dropped).Some?
    ensures var e := DropStep(s, c, a, dropped).value; Tame(s, o, e) && PcOk(Apply(s, o, e), o, e.pc)
  {
  }

  lemma RollbackPrepareTame(s: State, o: OpId, c: Choice, target: SandboxId, src: VmId, phase: RollbackPhase)
    requires phase.LockSource? || phase.FindSnapshot? || phase.LockSnapshot? || phase.Verify?
    requires Prior(s, o) == Rollback(target, src, phase) && RollbackPcOk(s, o, target, src, phase)
    requires RollbackPrepare(s, o, c, target, src, phase).Some?
    ensures Tame(s, o, RollbackPrepare(s, o, c, target, src, phase).value)
  {
  }

  lemma RollbackPreparePc(s: State, o: OpId, c: Choice, target: SandboxId, src: VmId, phase: RollbackPhase)
    requires phase.LockSource? || phase.FindSnapshot? || phase.LockSnapshot? || phase.Verify?
    requires Prior(s, o) == Rollback(target, src, phase) && RollbackPcOk(s, o, target, src, phase)
    requires IdsOk(s) && KeysOk(s) && RecsOk(s) && RollbackPrepare(s, o, c, target, src, phase).Some?
    ensures var e := RollbackPrepare(s, o, c, target, src, phase).value; PcOk(Apply(s, o, e), o, e.pc)
  {
    NextIsFresh(s);
    assert RecOk(s, src);
  }

  lemma LaunchFailedTame(s: State, o: OpId, p: Purpose, id: SandboxId, phase: LaunchPhase, vm: Put<Vm>)
    requires Prior(s, o) == Launch(p, id, phase) && PurposeOk(s, o, p, id)
    requires phase.Prepare? ==> vm.Keep?
    requires !phase.Prepare? ==>
      && (phase.Boot? || phase.Key?) && InFlightOk(s, o, phase.vm)
      && vm.At? && vm.key == phase.vm && vm.value == Vm(vm.value.guest, s.vms[phase.vm].kills + 1, Gone)
    ensures Tame(s, o, LaunchFailed(s, p).(vm := vm))
  {
  }

  lemma LaunchTame(s: State, o: OpId, c: Choice, p: Purpose, id: SandboxId, phase: LaunchPhase)
    requires Prior(s, o) == Launch(p, id, phase) && LaunchOk(s, o, p, id, phase) && !phase.Insert?
    requires LaunchStep(s, o, c, p, id, phase).Some?
    ensures Tame(s, o, LaunchStep(s, o, c, p, id, phase).value)
  {
    var e := LaunchStep(s, o, c, p, id, phase).value;
    if !phase.Return? && !e.pc.Launch? {
      LaunchFailedTame(s, o, p, id, phase, e.vm);
    }
  }

  lemma LaunchFailedPc(s: State, o: OpId, p: Purpose, id: SandboxId, vm: Put<Vm>)
    requires PurposeOk(s, o, p, id)
    ensures var e := LaunchFailed(s, p).(vm := vm); PcOk(Apply(s, o, e), o, e.pc)
  {
  }

  lemma LaunchedClonePc(s: State, o: OpId, p: Purpose, id: SandboxId)
    requires IdsOk(s) && KeysOk(s) && LaunchOk(s, o, p, id, Return) && p.ForClone?
    ensures var e := Launched(s, p, id); PcOk(Apply(s, o, e), o, e.pc)
  {
    var batch := p.done + [id];
    forall i | 0 <= i < |batch| ensures Pending(s, o, batch[i]) {
      assert i < |p.done| ==> Pending(s, o, p.done[i]);
    }
    var e := Launched(s, p, id);
    var t := Apply(s, o, e);
    if |batch| < p.want {
      assert PendingBatch(t, o, batch);
      NextIsFresh(s);
      assert LaunchOk(t, o, e.pc.purpose, s.next, Prepare);
    } else {
      assert OutcomeOk(t, o, CloneOk(batch));
    }
  }

  lemma LaunchedPc(s: State, o: OpId, p: Purpose, id: SandboxId)
    requires IdsOk(s) && KeysOk(s) && LaunchOk(s, o, p, id, Return)
    ensures var e := Launched(s, p, id); PcOk(Apply(s, o, e), o, e.pc)
  {
    NextIsFresh(s);
    match p {
      case ForCreate =>
      case ForClone(_, _, _) => LaunchedClonePc(s, o, p, id);
      case ForRollback(_, _, _) =>
    }
  }

  lemma SpawnFinePc(s: State, o: OpId, p: Purpose, id: SandboxId, phase: LaunchPhase)
    requires Prior(s, o) == Launch(p, id, phase) && LaunchOk(s, o, p, id, phase) && (phase.Prepare? || phase.Boot?)
    requires VmsOk(s) && RecsOk(s) && LaunchStep(s, o, Fine, p, id, phase).Some?
    ensures var e := LaunchStep(s, o, Fine, p, id, phase).value; PcOk(Apply(s, o, e), o, e.pc)
  {
    assert s.next in s.records ==> RecOk(s, s.next);
    var e := LaunchStep(s, o, Fine, p, id, phase).value;
    assert LaunchOk(Apply(s, o, e), o, p, id, e.pc.launch);
  }

  lemma SpawnPc(s: State, o: OpId, c: Choice, p: Purpose, id: SandboxId, phase: LaunchPhase)
    requires Prior(s, o) == Launch(p, id, phase) && LaunchOk(s, o, p, id, phase) && (phase.Prepare? || phase.Boot?)
    requires VmsOk(s) && RecsOk(s) && LaunchStep(s, o, c, p, id, phase).Some?
    ensures var e := LaunchStep(s, o, c, p, id, phase).value; PcOk(Apply(s, o, e), o, e.pc)
  {
    if c != Fine {
      LaunchFailedPc(s, o, p, id, LaunchStep(s, o, c, p, id, phase).value.vm);
    } else {
      SpawnFinePc(s, o, p, id, phase);
    }
  }

  lemma KeyPc(s: State, o: OpId, c: Choice, p: Purpose, id: SandboxId, phase: LaunchPhase)
    requires Prior(s, o) == Launch(p, id, phase) && LaunchOk(s, o, p, id, phase) && phase.Key?
    requires LaunchStep(s, o, c, p, id, phase).Some?
    ensures var e := LaunchStep(s, o, c, p, id, phase).value; PcOk(Apply(s, o, e), o, e.pc)
  {
    LaunchFailedPc(s, o, p, id, LaunchStep(s, o, c, p, id, phase).value.vm);
  }

  lemma DeleteTame(s: State, o: OpId, c: Choice, cause: Cause, id: SandboxId, phase: DeletePhase)
    requires Prior(s, o) == Delete(cause, id, phase) && DeleteOk(s, o, cause, id, phase)
    requires phase.Remove? ==> id !in s.sandboxes
    requires DeleteStep(s, o, c, cause, id, phase).Some?
    ensures Tame(s, o, DeleteStep(s, o, c, cause, id, phase).value)
  {
  }

  lemma AfterDeletePc(s: State, o: OpId, cause: Cause, id: SandboxId, phase: DeletePhase, ok: bool, rec: Put<Rec>, vm: Put<Vm>)
    requires CauseOk(s, o, cause, id, phase) && id !in s.sandboxes && (id in s.retired || phase.Remove?)
    requires rec.At? && cause.UndoRollback? ==> rec.key != cause.src
    ensures var e := AfterDelete(s, cause, id, ok).(rec := rec, vm := vm); PcOk(Apply(s, o, e), o, e.pc)
  {
  }

  lemma DeletePc(s: State, o: OpId, c: Choice, cause: Cause, id: SandboxId, phase: DeletePhase)
    requires KeysOk(s) && DeleteOk(s, o, cause, id, phase) && (phase.Remove? ==> id !in s.sandboxes)
    requires DeleteStep(s, o, c, cause, id, phase).Some?
    ensures var e := DeleteStep(s, o, c, cause, id, phase).value; PcOk(Apply(s, o, e), o, e.pc)
  {
    if !phase.Await? {
      assert id in s.sandboxes ==> KeyOk(s, id);
      var e := DeleteStep(s, o, c, cause, id, phase).value;
      AfterDeletePc(s, o, cause, id, phase, phase.Kill? && c == Fine, e.rec, e.vm);
    }
  }

  // ---------------------------------------------------------------------------------- rollback: the second half

  /** The replacement's record is not the source's. */
  lemma ReplacementApart(s: State, o: OpId, target: SandboxId, src: VmId, repl: SandboxId, v: VmId)
    requires ReplacementOf(s, o, target, src, repl) && ReplacementReady(s, repl, v)
    ensures v != src
  {
  }

  lemma RollbackFinishTame(s: State, o: OpId, c: Choice, target: SandboxId, src: VmId, phase: RollbackPhase)
    requires Prior(s, o) == Rollback(target, src, phase) && RollbackPcOk(s, o, target, src, phase) && Plainly(phase)
    requires RollbackFinish(s, o, c, target, src, phase).Some?
    ensures Tame(s, o, RollbackFinish(s, o, c, target, src, phase).value)
  {
  }

  lemma LockReplacementPc(s: State, o: OpId, c: Choice, target: SandboxId, src: VmId, phase: RollbackPhase)
    requires phase.LockReplacement? && RollbackPcOk(s, o, target, src, phase)
    requires RecsOk(s) && RollbackFinish(s, o, c, target, src, phase).Some?
    ensures var e := RollbackFinish(s, o, c, target, src, phase).value; PcOk(Apply(s, o, e), o, e.pc)
  {
    assert RecOk(s, phase.vm);
  }

  lemma FetchReplacementPc(s: State, o: OpId, c: Choice, target: SandboxId, src: VmId, phase: RollbackPhase)
    requires Prior(s, o) == Rollback(target, src, phase) && phase.FetchReplacement? && RollbackPcOk(s, o, target, src, phase)
    requires KeysOk(s) && RecsOk(s) && RollbackFinish(s, o, c, target, src, phase).Some?
    ensures var e := RollbackFinish(s, o, c, target, src, phase).value; PcOk(Apply(s, o, e), o, e.pc)
  {
    if phase.repl in s.sandboxes {
      assert KeyOk(s, phase.repl) && RecOk(s, s.sandboxes[phase.repl]);
    }
  }

  lemma RollbackFinishPc(s: State, o: OpId, c: Choice, target: SandboxId, src: VmId, phase: RollbackPhase)
    requires Prior(s, o) == Rollback(target, src, phase) && RollbackPcOk(s, o, target, src, phase) && Plainly(phase)
    requires KeysOk(s) && RecsOk(s) && RollbackFinish(s, o, c, target, src, phase).Some?
    ensures var e := RollbackFinish(s, o, c, target, src, phase).value; PcOk(Apply(s, o, e), o, e.pc)
  {
    match phase
    case FetchReplacement(_) => FetchReplacementPc(s, o, c, target, src, phase);
    case LockReplacement(_, _) => LockReplacementPc(s, o, c, target, src, phase);
    case _ =>
  }

  lemma RekeyRefused(s: State, o: OpId, c: Choice, target: SandboxId, src: VmId, phase: RollbackPhase)
    requires Prior(s, o) == Rollback(target, src, phase) && RollbackPcOk(s, o, target, src, phase)
    requires phase.RekeyReplacement? || (phase.Swap? && !SwapAllowed(s, target, src, phase.repl, phase.vm))
    requires RollbackFinish(s, o, c, target, src, phase).Some?
    requires phase.RekeyReplacement? ==> RollbackFinish(s, o, c, target, src, phase).value.vm.Keep?
    ensures var e := RollbackFinish(s, o, c, target, src, phase).value; Tame(s, o, e) && PcOk(Apply(s, o, e), o, e.pc)
  {
    ReplacementApart(s, o, target, src, phase.repl, phase.vm);
  }

  /** A step that touches one record, its VM and the id maps at the ids where it is or was at home. */
  lemma SwapMarks(s: State, o: OpId, c: Choice, target: SandboxId, src: VmId, phase: RollbackPhase, k: SandboxId)
    requires o in s.ops && s.ops[o] == Rollback(target, src, phase) && RollbackPcOk(s, o, target, src, phase)
    requires phase.Swap? && !SwapAllowed(s, target, src, phase.repl, phase.vm) && k in s.sandboxes
    requires RollbackFinish(s, o, c, target, src, phase).Some?
    ensures KeepsMark(s, Apply(s, o, RollbackFinish(s, o, c, target, src, phase).value), o, k)
  {
  }

  /** A step that changes neither artifacts nor the set of ids born. */
  lemma IdsAndArts(s: State, o: OpId, e: Effect)
    requires IdsOk(s) && ArtsOk(s) && o in s.ops && e.art.Keep?
    requires e.ids.Same? || e.ids.MapNew? || (e.ids.Unmap? && e.ids.id in s.born) || (e.ids.Exchange? && e.ids.repl in s.born)
    requires forall a | HoldsSnapshot(s.ops[o], a) :: HoldsSnapshot(e.pc, a)
    ensures IdsOk(Apply(s, o, e)) && ArtsOk(Apply(s, o, e))
  {
    var t := Apply(s, o, e);
    forall x | x in t.born ensures IdOk(t, x) { assert IdOk(s, x); }
    forall a | a in t.arts ensures ArtOk(t, a) { assert ArtOk(s, a); }
  }

  // ---------------------------------------------------------------------------------- insert

  lemma InsertPc(s: State, o: OpId, p: Purpose, id: SandboxId, v: VmId, tok: Token, e: Effect)
    requires VmsOk(s) && Inserting(s, o, p, id, v, tok, e)
    ensures PcOk(Apply(s, o, e), o, e.pc)
  {
  }

  lemma InsertRely(s: State, o: OpId, p: Purpose, id: SandboxId, v: VmId, tok: Token, e: Effect)
    requires RecsOk(s) && VmsOk(s) && Inserting(s, o, p, id, v, tok, e)
    ensures Rely(s, Apply(s, o, e), Some(o))
  {
    var t := Apply(s, o, e);
    forall u | u in s.records ensures RelyRec(s, t, Some(o), u) { assert RecOk(s, u); }
    forall u | u in s.vms ensures RelyVm(s, t, Some(o), u) { assert VmOk(s, u); }
    forall x | x in s.born ensures RelyId(s, t, Some(o), x) { }
  }

  lemma InsertKeys(s: State, o: OpId, p: Purpose, id: SandboxId, v: VmId, tok: Token, e: Effect)
    requires KeysOk(s) && IdsOk(s) && VmsOk(s) && Inserting(s, o, p, id, v, tok, e)
    ensures KeysOk(Apply(s, o, e))
  {
    var t := Apply(s, o, e);
    forall k | k in t.sandboxes ensures KeyOk(t, k) {
      if k != id { assert KeyOk(s, k) && IdOk(s, k) && VmOk(s, s.sandboxes[k]); } else { assert IdOk(s, id); }
    }
  }

  lemma InsertRecs(s: State, o: OpId, p: Purpose, id: SandboxId, v: VmId, tok: Token, e: Effect)
    requires RecsOk(s) && IdsOk(s) && VmsOk(s) && Inserting(s, o, p, id, v, tok, e)
    ensures RecsOk(Apply(s, o, e))
  {
    var t := Apply(s, o, e);
    forall u | u in t.records ensures RecOk(t, u) { if u != v { assert RecOk(s, u); } else { assert VmOk(s, v) && IdOk(s, id); } }
  }

  lemma InsertVms(s: State, o: OpId, p: Purpose, id: SandboxId, v: VmId, tok: Token, e: Effect)
    requires VmsOk(s) && Inserting(s, o, p, id, v, tok, e)
    ensures VmsOk(Apply(s, o, e))
  {
    var t := Apply(s, o, e);
    forall u | u in t.vms ensures VmOk(t, u) { assert VmOk(s, u); }
  }

  // ---------------------------------------------------------------------------------- remove

  lemma RemovePc(s: State, o: OpId, cause: Cause, id: SandboxId, e: Effect)
    requires Removing(s, o, cause, id, e)
    ensures PcOk(Apply(s, o, e), o, e.pc)
  {
  }

  lemma RemoveRely(s: State, o: OpId, cause: Cause, id: SandboxId, e: Effect)
    requires Removing(s, o, cause, id, e)
    ensures Rely(s, Apply(s, o, e), Some(o))
  {
    var t := Apply(s, o, e);
    forall u | u in s.records ensures RelyRec(s, t, Some(o), u) { }
    forall u | u in s.vms ensures RelyVm(s, t, Some(o), u) { }
    forall x | x in s.born ensures RelyId(s, t, Some(o), x) { }
  }

  lemma RemoveKeys(s: State, o: OpId, cause: Cause, id: SandboxId, e: Effect)
    requires KeysOk(s) && IdsOk(s) && Removing(s, o, cause, id, e)
    ensures KeysOk(Apply(s, o, e))
  {
    var t := Apply(s, o, e);
    forall k | k in t.sandboxes ensures KeyOk(t, k) { assert KeyOk(s, k) && IdOk(s, k); }
  }

  lemma RemoveRecs(s: State, o: OpId, cause: Cause, id: SandboxId, e: Effect)
    requires RecsOk(s) && Removing(s, o, cause, id, e)
    ensures RecsOk(Apply(s, o, e))
  {
    var t := Apply(s, o, e);
    forall u | u in t.records ensures RecOk(t, u) { assert RecOk(s, u); }
  }

  lemma RemoveVms(s: State, o: OpId, cause: Cause, id: SandboxId, e: Effect)
    requires VmsOk(s) && Removing(s, o, cause, id, e)
    ensures VmsOk(Apply(s, o, e))
  {
    var t := Apply(s, o, e);
    forall u | u in t.vms ensures VmOk(t, u) { assert VmOk(s, u); }
  }

  // ---------------------------------------------------------------------------------- second rekey

  lemma RekeyPc(s: State, o: OpId, target: SandboxId, src: VmId, repl: SandboxId, v: VmId, tok: Token, e: Effect)
    requires RecsOk(s) && Rekeying(s, o, target, src, repl, v, tok, e)
    ensures PcOk(Apply(s, o, e), o, e.pc)
  {
    ReplacementApart(s, o, target, src, repl, v);
  }

  lemma RekeyRely(s: State, o: OpId, target: SandboxId, src: VmId, repl: SandboxId, v: VmId, tok: Token, e: Effect)
    requires RecsOk(s) && VmsOk(s) && Rekeying(s, o, target, src, repl, v, tok, e)
    ensures Rely(s, Apply(s, o, e), Some(o))
  {
    ReplacementApart(s, o, target, src, repl, v);
    var t := Apply(s, o, e);
    forall u | u in s.records ensures RelyRec(s, t, Some(o), u) { }
    forall u | u in s.vms ensures RelyVm(s, t, Some(o), u) { assert VmOk(s, u); assert RecOk(s, v); }
    forall x | x in s.born ensures RelyId(s, t, Some(o), x) { }
  }

  lemma RekeyKeys(s: State, o: OpId, target: SandboxId, src: VmId, repl: SandboxId, v: VmId, tok: Token, e: Effect)
    requires KeysOk(s) && IdsOk(s) && Rekeying(s, o, target, src, repl, v, tok, e)
    ensures KeysOk(Apply(s, o, e))
  {
    ReplacementApart(s, o, target, src, repl, v);
    var t := Apply(s, o, e);
    forall k | k in t.sandboxes ensures KeyOk(t, k) { assert KeyOk(s, k) && IdOk(s, k); }
  }

  lemma RekeyRecs(s: State, o: OpId, target: SandboxId, src: VmId, repl: SandboxId, v: VmId, tok: Token, e: Effect)
    requires RecsOk(s) && Rekeying(s, o, target, src, repl, v, tok, e)
    ensures RecsOk(Apply(s, o, e))
  {
    ReplacementApart(s, o, target, src, repl, v);
    var t := Apply(s, o, e);
    forall u | u in t.records ensures RecOk(t, u) { assert RecOk(s, u); }
  }

  lemma RekeyVms(s: State, o: OpId, target: SandboxId, src: VmId, repl: SandboxId, v: VmId, tok: Token, e: Effect)
    requires VmsOk(s) && Rekeying(s, o, target, src, repl, v, tok, e)
    ensures VmsOk(Apply(s, o, e))
  {
    ReplacementApart(s, o, target, src, repl, v);
    var t := Apply(s, o, e);
    forall u | u in t.vms ensures VmOk(t, u) { assert VmOk(s, u); }
  }

  // ---------------------------------------------------------------------------------- the swap

  lemma ExchangePc(s: State, o: OpId, target: SandboxId, src: VmId, repl: SandboxId, v: VmId, e: Effect)
    requires Exchanging(s, o, target, src, repl, v, e)
    ensures PcOk(Apply(s, o, e), o, e.pc)
  {
  }

  lemma ExchangeRelyRecs(s: State, o: OpId, target: SandboxId, src: VmId, repl: SandboxId, v: VmId, e: Effect)
    requires Exchanging(s, o, target, src, repl, v, e)
    ensures forall u | u in s.records :: RelyRec(s, Apply(s, o, e), Some(o), u)
  {
  }

  lemma ExchangeRelyVms(s: State, o: OpId, target: SandboxId, src: VmId, repl: SandboxId, v: VmId, e: Effect)
    requires Exchanging(s, o, target, src, repl, v, e)
    ensures forall u | u in s.vms :: RelyVm(s, Apply(s, o, e), Some(o), u)
  {
  }

  lemma ExchangeRelyIds(s: State, o: OpId, target: SandboxId, src: VmId, repl: SandboxId, v: VmId, e: Effect)
    requires Exchanging(s, o, target, src, repl, v, e)
    ensures forall x | x in s.born :: RelyId(s, Apply(s, o, e), Some(o), x)
  {
  }

  lemma ExchangeRely(s: State, o: OpId, target: SandboxId, src: VmId, repl: SandboxId, v: VmId, e: Effect)
    requires Exchanging(s, o, target, src, repl, v, e)
    ensures Rely(s, Apply(s, o, e), Some(o))
  {
    ExchangeRelyRecs(s, o, target, src, repl, v, e);
    ExchangeRelyVms(s, o, target, src, repl, v, e);
    ExchangeRelyIds(s, o, target, src, repl, v, e);
  }

  lemma ExchangeKeys(s: State, o: OpId, target: SandboxId, src: VmId, repl: SandboxId, v: VmId, e: Effect)
    requires KeysOk(s) && IdsOk(s) && Exchanging(s, o, target, src, repl, v, e)
    ensures KeysOk(Apply(s, o, e))
  {
    var t := Apply(s, o, e);
    forall k | k in t.sandboxes ensures KeyOk(t, k) { assert KeyOk(s, k) && IdOk(s, k); }
  }

  lemma ExchangeRecs(s: State, o: OpId, target: SandboxId, src: VmId, repl: SandboxId, v: VmId, e: Effect)
    requires RecsOk(s) && Exchanging(s, o, target, src, repl, v, e)
    ensures RecsOk(Apply(s, o, e))
  {
    var t := Apply(s, o, e);
    forall u | u in t.records ensures RecOk(t, u) { assert RecOk(s, u); }
  }

  lemma ExchangeVms(s: State, o: OpId, target: SandboxId, src: VmId, repl: SandboxId, v: VmId, e: Effect)
    requires VmsOk(s) && Exchanging(s, o, target, src, repl, v, e)
    ensures VmsOk(Apply(s, o, e))
  {
    var t := Apply(s, o, e);
    forall u | u in t.vms ensures VmOk(t, u) { assert VmOk(s, u); }
  }

  // ---------------------------------------------------------------------------------- assembly

  lemma QuietGood(s: State, o: OpId, e: Effect)
    requires Globals(s) && Tame(s, o, e) && PcOk(Apply(s, o, e), o, e.pc)
    requires var pc := Prior(s, o);
      !(pc.Rollback? && pc.rollback.Swap?)
      && (pc.Delete? && pc.delete.Remove? && pc.cause.UndoRollback? ==> pc.id !in s.sandboxes)
    ensures GoodStep(s, Apply(s, o, e), o)
  {
    forall k | k in s.sandboxes ensures KeepsMark(s, Apply(s, o, e), o, k) { assert KeyOk(s, k); }
    TameGood(s, o, e);
  }

  lemma InsertGood(s: State, o: OpId, p: Purpose, id: SandboxId, v: VmId, tok: Token, e: Effect)
    requires Globals(s) && Inserting(s, o, p, id, v, tok, e)
    ensures GoodStep(s, Apply(s, o, e), o)
  {
    InsertPc(s, o, p, id, v, tok, e);
    InsertRely(s, o, p, id, v, tok, e);
    InsertKeys(s, o, p, id, v, tok, e);
    InsertRecs(s, o, p, id, v, tok, e);
    InsertVms(s, o, p, id, v, tok, e);
    IdsAndArts(s, o, e);
  }

  lemma LaunchGood(s: State, o: OpId, c: Choice, p: Purpose, id: SandboxId, phase: LaunchPhase)
    requires Globals(s) && o in s.ops && s.ops[o] == Launch(p, id, phase) && PcOk(s, o, s.ops[o])
    requires LaunchStep(s, o, c, p, id, phase).Some?
    ensures GoodStep(s, Apply(s, o, LaunchStep(s, o, c, p, id, phase).value), o)
  {
    var e := LaunchStep(s, o, c, p, id, phase).value;
    match phase {
      case Insert(v, tok) => InsertGood(s, o, p, id, v, tok, e);
      case Key(_, _) =>
        KeyPc(s, o, c, p, id, phase);
        LaunchTame(s, o, c, p, id, phase);
        QuietGood(s, o, e);
      case Return =>
        LaunchedPc(s, o, p, id);
        LaunchTame(s, o, c, p, id, phase);
        QuietGood(s, o, e);
      case _ =>
        SpawnPc(s, o, c, p, id, phase);
        LaunchTame(s, o, c, p, id, phase);
        QuietGood(s, o, e);
    }
  }

  lemma RemoveGood(s: State, o: OpId, cause: Cause, id: SandboxId, e: Effect)
    requires Globals(s) && Removing(s, o, cause, id, e)
    ensures GoodStep(s, Apply(s, o, e), o)
  {
    RemovePc(s, o, cause, id, e);
    RemoveRely(s, o, cause, id, e);
    RemoveKeys(s, o, cause, id, e);
    RemoveRecs(s, o, cause, id, e);
    RemoveVms(s, o, cause, id, e);
    IdsAndArts(s, o, e);
  }

  lemma DeleteGood(s: State, o: OpId, c: Choice, cause: Cause, id: SandboxId, phase: DeletePhase)
    requires Globals(s) && o in s.ops && s.ops[o] == Delete(cause, id, phase) && PcOk(s, o, s.ops[o])
    requires DeleteStep(s, o, c, cause, id, phase).Some?
    ensures GoodStep(s, Apply(s, o, DeleteStep(s, o, c, cause, id, phase).value), o)
  {
    var e := DeleteStep(s, o, c, cause, id, phase).value;
    if phase.Remove? && id in s.sandboxes {
      assert KeyOk(s, id);
      RemoveGood(s, o, cause, id, e);
    } else {
      DeletePc(s, o, c, cause, id, phase);
      DeleteTame(s, o, c, cause, id, phase);
      QuietGood(s, o, e);
    }
  }

  lemma RekeyGood(s: State, o: OpId, c: Choice, target: SandboxId, src: VmId, phase: RollbackPhase)
    requires Globals(s) && o in s.ops && s.ops[o] == Rollback(target, src, phase) && PcOk(s, o, s.ops[o])
    requires phase.RekeyReplacement? && RollbackFinish(s, o, c, target, src, phase).Some?
    ensures GoodStep(s, Apply(s, o, RollbackFinish(s, o, c, target, src, phase).value), o)
  {
    var e := RollbackFinish(s, o, c, target, src, phase).value;
    if e.vm.Keep? {
      RekeyRefused(s, o, c, target, src, phase);
      QuietGood(s, o, e);
    } else {
      RekeyPc(s, o, target, src, phase.repl, phase.vm, phase.tok, e);
      RekeyRely(s, o, target, src, phase.repl, phase.vm, phase.tok, e);
      RekeyKeys(s, o, target, src, phase.repl, phase.vm, phase.tok, e);
      RekeyRecs(s, o, target, src, phase.repl, phase.vm, phase.tok, e);
      RekeyVms(s, o, target, src, phase.repl, phase.vm, phase.tok, e);
      IdsAndArts(s, o, e);
    }
  }

  lemma SwapGood(s: State, o: OpId, c: Choice, target: SandboxId, src: VmId, phase: RollbackPhase)
    requires Globals(s) && o in s.ops && s.ops[o] == Rollback(target, src, phase) && PcOk(s, o, s.ops[o])
    requires phase.Swap? && RollbackFinish(s, o, c, target, src, phase).Some?
    ensures GoodStep(s, Apply(s, o, RollbackFinish(s, o, c, target, src, phase).value), o)
  {
    var e := RollbackFinish(s, o, c, target, src, phase).value;
    if SwapAllowed(s, target, src, phase.repl, phase.vm) {
      assert KeyOk(s, target) && KeyOk(s, phase.repl);
      ReplacementApart(s, o, target, src, phase.repl, phase.vm);
      ExchangePc(s, o, target, src, phase.repl, phase.vm, e);
      ExchangeRely(s, o, target, src, phase.repl, phase.vm, e);
      ExchangeKeys(s, o, target, src, phase.repl, phase.vm, e);
      ExchangeRecs(s, o, target, src, phase.repl, phase.vm, e);
      ExchangeVms(s, o, target, src, phase.repl, phase.vm, e);
      IdsAndArts(s, o, e);
    } else {
      RekeyRefused(s, o, c, target, src, phase);
      forall k | k in s.sandboxes ensures KeepsMark(s, Apply(s, o, e), o, k) {
        SwapMarks(s, o, c, target, src, phase, k);
      }
      TameGood(s, o, e);
    }
  }

  lemma FinishGood(s: State, o: OpId, c: Choice, target: SandboxId, src: VmId, phase: RollbackPhase)
    requires Globals(s) && Prior(s, o) == Rollback(target, src, phase) && RollbackPcOk(s, o, target, src, phase)
    requires Plainly(phase) && RollbackFinish(s, o, c, target, src, phase).Some?
    ensures GoodStep(s, Apply(s, o, RollbackFinish(s, o, c, target, src, phase).value), o)
  {
    RollbackFinishTame(s, o, c, target, src, phase);
    RollbackFinishPc(s, o, c, target, src, phase);
    QuietGood(s, o, RollbackFinish(s, o, c, target, src, phase).value);
  }

  lemma PrepareGood(s: State, o: OpId, c: Choice, target: SandboxId, src: VmId, phase: RollbackPhase)
    requires Globals(s) && Prior(s, o) == Rollback(target, src, phase) && RollbackPcOk(s, o, target, src, phase)
    requires phase.LockSource? || phase.FindSnapshot? || phase.LockSnapshot? || phase.Verify?
    requires RollbackPrepare(s, o, c, target, src, phase).Some?
    ensures GoodStep(s, Apply(s, o, RollbackPrepare(s, o, c, target, src, phase).value), o)
  {
    RollbackPrepareTame(s, o, c, target, src, phase);
    RollbackPreparePc(s, o, c, target, src, phase);
    QuietGood(s, o, RollbackPrepare(s, o, c, target, src, phase).value);
  }

  lemma RollbackGood(s: State, o: OpId, c: Choice, target: SandboxId, src: VmId, phase: RollbackPhase)
    requires Globals(s) && o in s.ops && s.ops[o] == Rollback(target, src, phase) && PcOk(s, o, s.ops[o])
    requires StepOp(s, o, c, s.ops[o]).Some?
    ensures GoodStep(s, Apply(s, o, StepOp(s, o, c, s.ops[o]).value), o)
  {
    if phase.RekeyReplacement? {
      RekeyGood(s, o, c, target, src, phase);
    } else if phase.Swap? {
      SwapGood(s, o, c, target, src, phase);
    } else if Plainly(phase) {
      FinishGood(s, o, c, target, src, phase);
    } else {
      PrepareGood(s, o, c, target, src, phase);
    }
  }

  lemma CaptureGood(s: State, o: OpId, c: Choice, id: SandboxId, v: VmId, phase: CapturePhase)
    requires Globals(s) && o in s.ops && s.ops[o] == Capture(id, v, phase) && PcOk(s, o, s.ops[o])
    requires CaptureStep(s, o, c, id, v, phase).Some?
    ensures GoodStep(s, Apply(s, o, CaptureStep(s, o, c, id, v, phase).value), o)
  {
    assert RecOk(s, v);
    CaptureTame(s, o, c, id, v, phase);
    CapturePc(s, o, c, id, v, phase);
    QuietGood(s, o, CaptureStep(s, o, c, id, v, phase).value);
  }

  lemma SimpleGood(s: State, o: OpId, c: Choice)
    requires Globals(s) && o in s.ops && PcOk(s, o, s.ops[o]) && StepOp(s, o, c, s.ops[o]).Some?
    requires var pc := s.ops[o];
      pc.WaitClone? || pc.VerifyClone? || pc.Control? || pc.InspectSnapshot? || pc.ListSnapshots? || pc.DropSnapshot?
    ensures GoodStep(s, Apply(s, o, StepOp(s, o, c, s.ops[o]).value), o)
  {
    match s.ops[o] {
      case WaitClone(snap, want) => CloneTame(s, o, c, snap, want, false);
      case VerifyClone(snap, want) => CloneTame(s, o, c, snap, want, true);
      case Control(kind, v, held) => ControlTame(s, o, c, kind, v, held);
      case InspectSnapshot(a, held) => InspectTame(s, o, a, held);
      case ListSnapshots(todo) => ListTame(s, o, todo);
      case DropSnapshot(a, dropped) => DropTame(s, o, c, a, dropped);
    }
    QuietGood(s, o, StepOp(s, o, c, s.ops[o]).value);
  }

  lemma StepGood(s: State, o: OpId, c: Choice)
    requires Globals(s) && o in s.ops && PcOk(s, o, s.ops[o]) && StepOp(s, o, c, s.ops[o]).Some?
    ensures GoodStep(s, Apply(s, o, StepOp(s, o, c, s.ops[o]).value), o)
  {
    match s.ops[o] {
      case Launch(p, id, phase) => LaunchGood(s, o, c, p, id, phase);
      case Delete(cause, id, phase) => DeleteGood(s, o, c, cause, id, phase);
      case Rollback(target, src, phase) => RollbackGood(s, o, c, target, src, phase);
      case Capture(id, v, phase) => CaptureGood(s, o, c, id, v, phase);
      case _ => SimpleGood(s, o, c);
    }
  }

  lemma BeginTame(s: State, o: OpId, request: Request)
    requires o !in s.ops
    ensures Tame(s, o, BeginOp(s, o, request))
  {
  }

  lemma FetchPc(s: State, k: SandboxId)
    requires KeysOk(s) && k in s.sandboxes
    ensures FetchedUnder(s, k, s.sandboxes[k])
  {
    assert KeyOk(s, k);
  }

  lemma BeginPc(s: State, o: OpId, request: Request)
    requires KeysOk(s) && IdsOk(s) && o !in s.ops
    ensures PcOk(Apply(s, o, BeginOp(s, o, request)), o, BeginOp(s, o, request).pc)
  {
    match request {
      case Create => BeginCreatePc(s, o);
      case RollBack(target, _) => if target in s.sandboxes { FetchPc(s, target); }
      case ControlSandbox(_, id) => if id in s.sandboxes { FetchPc(s, id); }
      case CreateSnapshot(id) => if id in s.sandboxes { FetchPc(s, id); }
      case _ =>
    }
  }

  lemma BeginCreatePc(s: State, o: OpId)
    requires KeysOk(s) && IdsOk(s) && o !in s.ops
    ensures PcOk(Apply(s, o, BeginOp(s, o, Create)), o, BeginOp(s, o, Create).pc)
  {
    NextIsFresh(s);
  }

  lemma BeginGood(s: State, o: OpId, request: Request)
    requires Globals(s) && o !in s.ops
    ensures GoodStep(s, Apply(s, o, BeginOp(s, o, request)), o)
  {
    BeginTame(s, o, request);
    BeginPc(s, o, request);
    QuietGood(s, o, BeginOp(s, o, request));
  }

  lemma Others(s: State, t: State, o: OpId)
    requires Globals(s) && GoodStep(s, t, o) && forall p | p in s.ops && p != o :: PcOk(s, p, s.ops[p])
    ensures Inv(t)
  {
    forall p | p in t.ops ensures PcOk(t, p, t.ops[p]) {
      if p != o { OtherStable(s, t, Some(o), p, s.ops[p]); }
    }
  }

  lemma DamageRely(s: State, a: SnapId)
    requires Globals(s) && Next(s, Damage(a)).Some?
    ensures Rely(s, Next(s, Damage(a)).value, None)
  {
    var t := Next(s, Damage(a)).value;
    forall v | v in s.vms ensures RelyVm(s, t, None, v) { }
    forall v | v in s.records ensures RelyRec(s, t, None, v) { }
    forall b | b in s.arts ensures RelyArt(s, t, None, b) { }
    forall id | id in s.born ensures RelyId(s, t, None, id) { }
  }

  lemma DamageInv(s: State, a: SnapId)
    requires Inv(s) && Next(s, Damage(a)).Some?
    ensures Inv(Next(s, Damage(a)).value)
  {
    var t := Next(s, Damage(a)).value;
    DamageRely(s, a);
    forall p | p in t.ops ensures PcOk(t, p, t.ops[p]) { OtherStable(s, t, None, p, s.ops[p]); }
    DamageGlobals(s, a);
  }

  lemma DamageGlobals(s: State, a: SnapId)
    requires Globals(s) && Next(s, Damage(a)).Some?
    ensures Globals(Next(s, Damage(a)).value)
  {
    var t := Next(s, Damage(a)).value;
    forall k | k in t.sandboxes ensures KeyOk(t, k) { assert KeyOk(s, k); }
    forall v | v in t.records ensures RecOk(t, v) { assert RecOk(s, v); }
    forall v | v in t.vms ensures VmOk(t, v) { assert VmOk(s, v); }
    forall b | b in t.arts ensures ArtOk(t, b) { assert ArtOk(s, b); }
    forall id | id in t.born ensures IdOk(t, id) { assert IdOk(s, id); }
  }

  /** Every action keeps the invariant. */
  lemma ActionInv(s: State, a: Action)
    requires Inv(s) && Next(s, a).Some?
    ensures Inv(Next(s, a).value)
  {
    match a {
      case Begin(o, request) =>
        BeginGood(s, o, request);
        Others(s, Next(s, a).value, o);
      case Step(o, c) =>
        StepGood(s, o, c);
        Others(s, Next(s, a).value, o);
      case Damage(snap) => DamageInv(s, snap);
    }
  }

  /** The invariant holds all along every run, whatever the interleaving and whatever fails. */
  lemma {:induction false} RunInv(states: seq<State>, actions: seq<Action>, i: nat)
    requires IsRun(states, actions) && i < |states| && Inv(states[0])
    ensures Inv(states[i])
  {
    if i > 0 {
      RunInv(states, actions, i - 1);
      ActionInv(states[i - 1], actions[i - 1]);
    }
  }

  lemma InitialInv()
    ensures Inv(INITIAL)
  {
  }
}
