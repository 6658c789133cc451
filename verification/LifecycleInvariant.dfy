/**
The invariant of the lifecycle, stated by rely and guarantee: `PcOk` is what one operation may count
on at its program counter, `Rely` is what a step of anybody else leaves alone.
*/
module LifecycleInvariant {
  import opened Core
  import opened GuestAgent
  import opened Lifecycle

  // ---------------------------------------------------------------------------------- what a counter holds

  predicate HoldsRecord(pc: Pc, v: VmId) {
    match pc
    case Launch(p, _, _) => p.ForRollback? && v == p.src
    case Delete(cause, _, phase) => (cause.UndoRollback? && v == cause.src) || (phase.Kill? && v == phase.vm)
    case Rollback(_, src, phase) =>
      (v == src && !phase.LockSource?) || ((phase.RekeyReplacement? || phase.Swap?) && v == phase.vm)
    case Control(_, u, held) => held && v == u
    case Capture(_, u, phase) => v == u && (phase.PauseFirst? || phase.TakeShot? || phase.ResumeAfter?)
    case _ => false
  }

  predicate HoldsSnapshot(pc: Pc, a: SnapId) {
    match pc
    case Launch(p, _, _) => !p.ForCreate? && p.snap == a
    case Delete(cause, _, _) => cause.UndoClone? && cause.snap == a
    case VerifyClone(snap, _) => snap == a
    case Rollback(_, _, phase) => phase.Verify? && phase.snap == a
    case InspectSnapshot(snap, held) => held && snap == a
    case DropSnapshot(snap, dropped) => !dropped && snap == a
    case _ => false
  }

  predicate Launching(pc: Pc, v: VmId) {
    pc.Launch? && !pc.launch.Prepare? && !pc.launch.Return? && pc.launch.vm == v
  }

  predicate HasRemoved(pc: Pc, v: VmId) {
    || (pc.Delete? && !pc.delete.Remove? && pc.delete.vm == v)
    || (pc.Rollback? && pc.rollback.Retire? && pc.src == v)
  }

  predicate LockedBy(s: State, v: VmId, o: OpId) {
    Known(s, v) && s.records[v].lock == Some(o)
  }

  predicate LeasedBy(s: State, a: SnapId, o: OpId) {
    a in s.arts && s.arts[a].lock == Some(o)
  }

  // ---------------------------------------------------------------------------------- per operation

  /** A record fetched under an id that a caller may know is the record at home there. */
  predicate FetchedUnder(s: State, id: SandboxId, v: VmId) {
    Known(s, v) && (id in s.internal || s.records[v].home == id) && id < s.next
  }

  predicate SourceHeld(s: State, o: OpId, target: SandboxId, src: VmId) {
    LockedBy(s, src, o) && Live(s.records[src].state) && FetchedUnder(s, target, src)
  }

  predicate MappedOrRetired(s: State, id: SandboxId) { id in s.sandboxes || id in s.retired }

  /** An id launched by `o` that no call has returned yet. */
  predicate Pending(s: State, o: OpId, id: SandboxId) {
    id in s.born && s.born[id] == o && id !in s.internal && id !in s.issued && MappedOrRetired(s, id)
  }

  predicate Distinct(ids: seq<SandboxId>) {
    forall i, j | 0 <= i < j < |ids| :: ids[i] != ids[j]
  }

  predicate PendingBatch(s: State, o: OpId, batch: seq<SandboxId>) {
    Distinct(batch) && forall i | 0 <= i < |batch| :: Pending(s, o, batch[i])
  }

  predicate ReplacementOf(s: State, o: OpId, target: SandboxId, src: VmId, repl: SandboxId) {
    && repl in s.born && s.born[repl] == o && repl in s.internal && repl < s.next
    && target < repl && src in s.records && s.records[src].home < repl
  }

  predicate PurposeOk(s: State, o: OpId, p: Purpose, id: SandboxId) {
    match p
    case ForCreate => id !in s.internal
    case ForClone(snap, want, done) =>
      LeasedBy(s, snap, o) && s.arts[snap].intact && |done| < want && PendingBatch(s, o, done)
      && id !in done && id !in s.internal
    case ForRollback(target, src, snap) =>
      && LeasedBy(s, snap, o) && s.arts[snap].intact && s.arts[snap].source == target
      && SourceHeld(s, o, target, src) && ReplacementOf(s, o, target, src, id)
  }

  predicate InFlightOk(s: State, o: OpId, v: VmId) {
    v in s.vms && v !in s.records && s.vms[v].owner == InFlight(o)
  }

  predicate LaunchOk(s: State, o: OpId, p: Purpose, id: SandboxId, phase: LaunchPhase) {
    && PurposeOk(s, o, p, id)
    && id in s.born && s.born[id] == o && id !in s.issued
    && (if phase.Return? then MappedOrRetired(s, id) else !MappedOrRetired(s, id))
    && match phase
       case Prepare => true
       case Return => true
       case Boot(v) => InFlightOk(s, o, v)
       case Key(v, tok) => InFlightOk(s, o, v) && tok < s.next
       case Insert(v, tok) => InFlightOk(s, o, v) && tok < s.next && s.vms[v].guest == Keyed(id, Sha256(tok))
  }

  predicate CauseOk(s: State, o: OpId, cause: Cause, id: SandboxId, phase: DeletePhase) {
    match cause
    case Asked => true
    case UndoClone(snap, batch, todo) =>
      && LeasedBy(s, snap, o) && PendingBatch(s, o, batch) && id in batch
      && (forall x | x in todo :: x in batch)
      && (forall x | x in batch :: x in s.retired || x in todo || x == id)
    case UndoRollback(target, src, rekeyed) =>
      && SourceHeld(s, o, target, src) && ReplacementOf(s, o, target, src, id) && MappedOrRetired(s, id)
      && (rekeyed.Some? && phase == Remove ==>
            var v := rekeyed.value;
            Known(s, v) && s.records[v].home == id && s.vms[v].guest.Keyed? && s.vms[v].guest.id == target)
  }

  predicate DeleteOk(s: State, o: OpId, cause: Cause, id: SandboxId, phase: DeletePhase) {
    && CauseOk(s, o, cause, id, phase)
    && (!phase.Remove? ==>
          && Known(s, phase.vm) && s.vms[phase.vm].owner == Removed(o) && s.records[phase.vm].home == id
          && id in s.retired)
    && (phase.Kill? ==> s.records[phase.vm].lock == Some(o) && s.records[phase.vm].state == Deleting)
  }

  predicate ReplacementReady(s: State, repl: SandboxId, v: VmId) {
    Known(s, v) && s.records[v].home == repl && !s.records[v].lost
  }

  predicate RollbackPcOk(s: State, o: OpId, target: SandboxId, src: VmId, phase: RollbackPhase) {
    match phase
    case LockSource(_) => FetchedUnder(s, target, src)
    case FindSnapshot(_) => SourceHeld(s, o, target, src)
    case LockSnapshot(snap) => SourceHeld(s, o, target, src) && snap in s.arts
    case Verify(snap) => SourceHeld(s, o, target, src) && LeasedBy(s, snap, o)
    case FetchReplacement(repl) =>
      SourceHeld(s, o, target, src) && ReplacementOf(s, o, target, src, repl) && MappedOrRetired(s, repl)
    case LockReplacement(repl, v) =>
      && SourceHeld(s, o, target, src) && ReplacementOf(s, o, target, src, repl) && MappedOrRetired(s, repl)
      && ReplacementReady(s, repl, v)
    case RekeyReplacement(repl, v, tok) =>
      && SourceHeld(s, o, target, src) && ReplacementOf(s, o, target, src, repl) && MappedOrRetired(s, repl)
      && ReplacementReady(s, repl, v) && LockedBy(s, v, o) && s.records[v].token < tok < s.next
    case Swap(repl, v) =>
      && SourceHeld(s, o, target, src) && ReplacementOf(s, o, target, src, repl) && MappedOrRetired(s, repl)
      && ReplacementReady(s, repl, v) && LockedBy(s, v, o)
      && s.vms[v].guest == Keyed(target, Sha256(s.records[v].token))
    case Retire(repl) =>
      && LockedBy(s, src, o) && Live(s.records[src].state) && s.vms[src].owner == Removed(o)
      && repl in s.retired
    case GiveUp(repl) => SourceHeld(s, o, target, src) && repl in s.retired
  }

  predicate ControlOk(s: State, o: OpId, kind: ControlKind, v: VmId, held: bool) {
    && Known(s, v)
    && (held ==> LockedBy(s, v, o) && !kind.LookUp? && s.records[v].state == (if kind.PauseIt? then Running else Paused))
  }

  predicate ShotOk(s: State, shot: Shot) {
    && shot.memory.Keyed? && (shot.lost <==> !Authenticates(shot.memory, shot.token))
    && (shot.lost ==> shot.source in s.internal)
  }

  predicate CaptureOk(s: State, o: OpId, id: SandboxId, v: VmId, phase: CapturePhase) {
    match phase
    case LockRecord => FetchedUnder(s, id, v)
    case PauseFirst(was) => SourceHeld(s, o, id, v) && s.records[v].state == was
    case TakeShot(was, paused) =>
      && SourceHeld(s, o, id, v) && s.records[v].state == Paused && was == (if paused then Running else Paused)
    case ResumeAfter(was, paused, shot) =>
      && SourceHeld(s, o, id, v) && s.records[v].state == Paused && was == (if paused then Running else Paused)
      && (shot.Some? ==> ShotOk(s, shot.value) && shot.value.source == id)
    case Publish(shot) => Known(s, v) && ShotOk(s, shot) && shot.source == id
  }

  predicate OutcomeOk(s: State, o: OpId, outcome: Outcome) {
    match outcome
    case Plain(_) => true
    case CreateOk(id) => id in s.issued && MappedOrRetired(s, id)
    case CloneOk(ids) =>
      Distinct(ids) && forall i | 0 <= i < |ids| ::
        ids[i] in s.born && s.born[ids[i]] == o && ids[i] in s.issued && MappedOrRetired(s, ids[i])
    case CloneErr(batch) => forall x | x in batch :: x in s.retired
    case RollbackOk(_, repl) => repl in s.retired
    case RollbackErr(_, undone) => undone.Some? ==> undone.value in s.retired
  }

  predicate CounterOk(s: State, o: OpId, pc: Pc) {
    match pc
    case Launch(p, id, phase) => LaunchOk(s, o, p, id, phase)
    case Delete(cause, id, phase) => DeleteOk(s, o, cause, id, phase)
    case WaitClone(snap, want) => snap in s.arts && 1 <= want
    case VerifyClone(snap, want) => LeasedBy(s, snap, o) && 1 <= want
    case Rollback(target, src, phase) => RollbackPcOk(s, o, target, src, phase)
    case Control(kind, v, held) => ControlOk(s, o, kind, v, held)
    case Capture(id, v, phase) => CaptureOk(s, o, id, v, phase)
    case InspectSnapshot(a, held) => a in s.arts && (held ==> LeasedBy(s, a, o))
    case ListSnapshots(todo) => forall a | a in todo :: a in s.arts
    case DropSnapshot(a, dropped) => a in s.arts && (!dropped ==> LeasedBy(s, a, o))
    case Finished(outcome) => OutcomeOk(s, o, outcome)
  }

  /** `CounterOk` as one fact: compared with `true`, it is not spelt out case by case at every use. */
  predicate PcOk(s: State, o: OpId, pc: Pc) { CounterOk(s, o, pc) == true }

  // ---------------------------------------------------------------------------------- per entry

  /** A failing rollback is about to delete `k`, and its second rekey has reached the guest. */
  predicate Discarding(s: State, k: SandboxId) {
    && k in s.born && s.born[k] in s.ops && k in s.sandboxes
    && var pc := s.ops[s.born[k]];
       pc.Delete? && pc.id == k && pc.delete == Remove
       && pc.cause.UndoRollback? && pc.cause.rekeyed == Some(s.sandboxes[k])
  }

  /** A rollback holds `k`'s record and is about to move it to the public id. */
  predicate Committing(s: State, k: SandboxId) {
    && k in s.born && s.born[k] in s.ops && k in s.sandboxes
    && s.ops[s.born[k]].Rollback? && s.ops[s.born[k]].rollback == Swap(k, s.sandboxes[k])
  }

  predicate Agrees(s: State, k: SandboxId) {
    && k in s.sandboxes && Known(s, s.sandboxes[k])
    && s.vms[s.sandboxes[k]].guest == Keyed(k, Sha256(s.records[s.sandboxes[k]].token))
  }

  predicate KeyOk(s: State, k: SandboxId) {
    && k in s.sandboxes && Known(s, s.sandboxes[k])
    && var v := s.sandboxes[k];
       && s.records[v].home == k && s.vms[v].owner == Mapped(k)
       && k in s.born && k !in s.retired && k < s.next
       && (Discarding(s, k) || Committing(s, k) || Agrees(s, k))
       && (s.records[v].lost ==> Discarding(s, k))
  }

  predicate RecOk(s: State, v: VmId) {
    && Known(s, v) && v < s.next
    && var r := s.records[v];
       && r.home < s.next && r.token < s.next && r.home in s.born
       && s.vms[v].guest.Keyed? && (r.lost <==> !Authenticates(s.vms[v].guest, r.token))
       && (r.lost ==> r.home in s.internal)
       && (r.lock.Some? ==> r.lock.value in s.ops && HoldsRecord(s.ops[r.lock.value], v))
       && (s.vms[v].kills > 0 ==> Dead(r.state))
       && !s.vms[v].owner.InFlight?
  }

  predicate VmOk(s: State, v: VmId) {
    && v in s.vms && v < s.next
    && var vm := s.vms[v];
       && vm.kills <= 1 && (vm.kills == 1 <==> vm.owner == Gone)
       && match vm.owner
          case InFlight(o) => o in s.ops && Launching(s.ops[o], v)
          case Mapped(k) => k in s.sandboxes && s.sandboxes[k] == v
          case Removed(o) => o in s.ops && HasRemoved(s.ops[o], v)
          case Gone => true
  }

  predicate ArtOk(s: State, a: SnapId) {
    && a in s.arts && a < s.next
    && var art := s.arts[a];
       && art.memory.Keyed? && (art.lost <==> !Authenticates(art.memory, art.token))
       && (art.lost ==> art.source in s.internal)
       && (art.lock.Some? ==> art.lock.value in s.ops && HoldsSnapshot(s.ops[art.lock.value], a))
  }

  predicate IdOk(s: State, id: SandboxId) {
    && id in s.born && id < s.next && s.born[id] in s.ops
  }

  predicate IdsOk(s: State) {
    && (forall id | id in s.born :: IdOk(s, id))
    && s.internal <= s.born.Keys && s.issued <= s.born.Keys && s.retired <= s.born.Keys
    && s.internal !! s.issued
    && s.listed <= s.arts.Keys
  }

  predicate OpsOk(s: State) { forall o | o in s.ops :: PcOk(s, o, s.ops[o]) }
  predicate KeysOk(s: State) { forall k | k in s.sandboxes :: KeyOk(s, k) }
  predicate RecsOk(s: State) { forall v | v in s.records :: RecOk(s, v) }
  predicate VmsOk(s: State) { forall v | v in s.vms :: VmOk(s, v) }
  predicate ArtsOk(s: State) { forall a | a in s.arts :: ArtOk(s, a) }

  predicate Globals(s: State) { IdsOk(s) && KeysOk(s) && RecsOk(s) && VmsOk(s) && ArtsOk(s) }

  predicate Inv(s: State) { OpsOk(s) && Globals(s) }

  // ---------------------------------------------------------------------------------- rely

  predicate RelyRec(s: State, t: State, me: Option<OpId>, v: VmId)
    requires v in s.records
  {
    && v in t.records
    && var r, q := s.records[v], t.records[v];
       && (r.lock.Some? && r.lock != me ==> r == q)
       && ((q.home == r.home && q.lost == r.lost && q.token == r.token)
           || (r.home in s.internal && r.home in s.born && Some(s.born[r.home]) == me))
       && (Dead(r.state) ==> Dead(q.state))
  }

  predicate RelyVm(s: State, t: State, me: Option<OpId>, v: VmId)
    requires v in s.vms
  {
    && v in t.vms
    && var r, q := s.vms[v], t.vms[v];
       && (r.owner.InFlight? && Some(r.owner.launcher) != me ==> r == q && (v !in s.records ==> v !in t.records))
       && (r.owner.Removed? && Some(r.owner.remover) != me ==> r.owner == q.owner && r.kills == q.kills)
       && (r.guest == q.guest
           || (r.owner.InFlight? && Some(r.owner.launcher) == me)
           || (v in s.records && s.records[v].home in s.internal && s.records[v].home in s.born
               && Some(s.born[s.records[v].home]) == me))
       && (v in s.records && s.records[v].lock.Some? && s.records[v].lock != me ==> r.guest == q.guest && r.kills == q.kills)
       && (v in s.records && !r.owner.Mapped? ==> v in t.records && t.records[v].home == s.records[v].home)
  }

  predicate RelyArt(s: State, t: State, me: Option<OpId>, a: SnapId)
    requires a in s.arts
  {
    && a in t.arts
    && var r, q := s.arts[a], t.arts[a];
       && (r.lock.Some? && r.lock != me ==> r == q)
       && r.source == q.source && r.token == q.token && r.memory == q.memory && r.lost == q.lost
  }

  predicate RelyId(s: State, t: State, me: Option<OpId>, id: SandboxId)
    requires id in s.born
  {
    && id in t.born && t.born[id] == s.born[id]
    && (id in s.internal <==> id in t.internal)
    && (id in s.issued ==> id in t.issued)
    && (id in t.issued ==> id in s.issued || Some(s.born[id]) == me)
    && (id in s.retired ==> id in t.retired)
    && (id in t.retired ==> id in s.retired || id in s.sandboxes)
    && (id in t.sandboxes ==> id in s.sandboxes || Some(s.born[id]) == me)
    && (id in s.sandboxes ==> MappedOrRetired(t, id))
  }

  predicate Rely(s: State, t: State, me: Option<OpId>) {
    && s.next <= t.next
    && (forall v | v in s.records :: RelyRec(s, t, me, v))
    && (forall v | v in s.vms :: RelyVm(s, t, me, v))
    && (forall a | a in s.arts :: RelyArt(s, t, me, a))
    && (forall id | id in s.born :: RelyId(s, t, me, id))
  }

  // ---------------------------------------------------------------------------------- one step

  /** What every step of `o` establishes. */
  predicate GoodStep(s: State, t: State, o: OpId) {
    && o in t.ops && t.ops == s.ops[o := t.ops[o]]
    && Rely(s, t, Some(o)) && PcOk(t, o, t.ops[o]) && Globals(t)
  }

  /** The counter before the step; an operation that has not begun holds nothing. */
  function Prior(s: State, o: OpId): Pc {
    if o in s.ops then s.ops[o] else Finished(Plain(false))
  }

  ghost predicate KeepsHolding(p: Pc, e: Effect) {
    && (forall v | HoldsRecord(p, v) :: HoldsRecord(e.pc, v) || (e.rec.At? && e.rec.key == v))
    && (forall a | HoldsSnapshot(p, a) :: HoldsSnapshot(e.pc, a) || (e.art.At? && e.art.key == a))
    && (forall v | Launching(p, v) :: Launching(e.pc, v) || (e.vm.At? && e.vm.key == v))
    && (forall v | HasRemoved(p, v) :: HasRemoved(e.pc, v) || (e.vm.At? && e.vm.key == v))
  }

  /** A lock is taken or given back by its holder, perhaps with a change of state. */
  predicate TameRec(s: State, o: OpId, e: Effect) {
    e.rec.At? ==>
      && e.rec.key in s.records
      && var r, q := s.records[e.rec.key], e.rec.value;
         && q == r.(lock := q.lock, state := q.state)
         && (r.lock.Some? ==> r.lock == Some(o))
         && (q.lock.Some? ==> q.lock == Some(o) && HoldsRecord(e.pc, e.rec.key))
         && (Dead(r.state) ==> Dead(q.state))
  }

  /** A VM is spawned, keyed while in flight, or terminated by its launcher or its remover. */
  predicate TameVm(s: State, o: OpId, e: Effect) {
    e.vm.At? ==>
      var v, q := e.vm.key, e.vm.value;
      || (v == s.next && q.kills == 0 && q.owner == InFlight(o) && Launching(e.pc, v))
      || (v in s.vms && s.vms[v].owner == InFlight(o) && q == s.vms[v].(guest := q.guest) && Launching(e.pc, v))
      || (v in s.vms && s.vms[v].owner == InFlight(o) && q == Vm(q.guest, s.vms[v].kills + 1, Gone))
      || (v in s.vms && s.vms[v].owner == Removed(o) && q == Killed(s.vms[v])
          && e.rec.At? && e.rec.key == v && Dead(e.rec.value.state))
  }

  predicate TameArt(s: State, o: OpId, e: Effect) {
    e.art.At? ==>
      var a, q := e.art.key, e.art.value;
      || (a == s.next && q.lock.None? && ShotOk(s, Shot(q.source, q.token, q.memory, q.lost)))
      || (a in s.arts && q == s.arts[a].(lock := q.lock, intact := q.intact)
          && (s.arts[a].lock.Some? ==> s.arts[a].lock == Some(o))
          && (q.lock.Some? ==> q.lock == Some(o) && HoldsSnapshot(e.pc, a)))
  }

  predicate TameIds(s: State, o: OpId, e: Effect) {
    match e.ids
    case Same => true
    case Bear(_) => true
    case Issue(ids) => forall x | x in ids :: x in s.born && s.born[x] == o && x !in s.internal
    case List(a) => e.art.At? && e.art.key == a
    case Unlist(_) => true
    case _ => false
  }

  /** A step that maps nothing, removes nothing and rekeys nothing that is mapped. */
  ghost predicate Tame(s: State, o: OpId, e: Effect) {
    && KeepsHolding(Prior(s, o), e)
    && TameRec(s, o, e) && TameVm(s, o, e) && TameArt(s, o, e) && TameIds(s, o, e)
  }

  /** The replacement `o` is about to commit or discard, if any, is being discarded afterwards. */
  predicate KeepsMark(s: State, t: State, o: OpId, k: SandboxId) {
    k in s.born && s.born[k] == o && (Discarding(s, k) || Committing(s, k)) ==> Discarding(t, k)
  }

  // ---------------------------------------------------------------------------------- rollback: the second half

  predicate Plainly(phase: RollbackPhase) {
    phase.FetchReplacement? || phase.LockReplacement? || phase.Retire? || phase.GiveUp?
  }

  // ---------------------------------------------------------------------------------- insert

  predicate Inserting(s: State, o: OpId, p: Purpose, id: SandboxId, v: VmId, tok: Token, e: Effect) {
    && o in s.ops && s.ops[o] == Launch(p, id, Insert(v, tok)) && LaunchOk(s, o, p, id, Insert(v, tok))
    && v in s.vms
    && e == Goto(Launch(p, id, Return)).(
              rec := At(v, Rec(Running, tok, None, id, false)), vm := At(v, s.vms[v].(owner := Mapped(id))),
              ids := MapNew(id, v))
  }

  // ---------------------------------------------------------------------------------- remove

  predicate Removing(s: State, o: OpId, cause: Cause, id: SandboxId, e: Effect) {
    && o in s.ops && s.ops[o] == Delete(cause, id, Remove) && DeleteOk(s, o, cause, id, Remove)
    && id in s.sandboxes && KeyOk(s, id)
    && var v := s.sandboxes[id];
       e == Goto(Delete(cause, id, Await(v))).(vm := At(v, s.vms[v].(owner := Removed(o))), ids := Unmap(id))
  }

  // ---------------------------------------------------------------------------------- second rekey

  predicate Rekeying(s: State, o: OpId, target: SandboxId, src: VmId, repl: SandboxId, v: VmId, tok: Token, e: Effect) {
    && o in s.ops && s.ops[o] == Rollback(target, src, RekeyReplacement(repl, v, tok))
    && RollbackPcOk(s, o, target, src, RekeyReplacement(repl, v, tok))
    && s.vms[v].kills == 0 && Authenticates(s.vms[v].guest, s.records[v].token)
    && e.vm == At(v, s.vms[v].(guest := Keyed(target, Sha256(tok)))) && e.art.Keep? && e.ids.Same?
    && (|| (e.pc == Rollback(target, src, Swap(repl, v)) && e.rec == At(v, s.records[v].(token := tok)))
        || (e.pc == Delete(UndoRollback(target, src, Some(v)), repl, Remove)
            && e.rec == At(v, Unlocked(s.records[v]).(lost := true))))
  }

  // ---------------------------------------------------------------------------------- the swap

  predicate Exchanging(s: State, o: OpId, target: SandboxId, src: VmId, repl: SandboxId, v: VmId, e: Effect) {
    && o in s.ops && s.ops[o] == Rollback(target, src, Swap(repl, v))
    && RollbackPcOk(s, o, target, src, Swap(repl, v)) && SwapAllowed(s, target, src, repl, v)
    && KeyOk(s, target) && KeyOk(s, repl) && v != src
    && e == Goto(Rollback(target, src, Retire(repl))).(
              rec := At(v, Unlocked(s.records[v]).(home := target)),
              vm := At(v, s.vms[v].(owner := Mapped(target))),
              ids := Exchange(target, repl, v, src))
  }
}
