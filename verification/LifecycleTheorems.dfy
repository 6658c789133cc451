/** What the invariant means: theorems over every run of the lifecycle. */
module LifecycleTheorems {
  import opened Core
  import opened GuestAgent
  import opened Lifecycle
  import opened LifecycleInvariant
  import opened LifecyclePreservation

  ghost predicate Reachable(s: State) {
    exists states, actions :: IsRun(states, actions) && states[0] == INITIAL && states[|actions|] == s
  }

  lemma ReachableInv(s: State)
    requires Reachable(s)
    ensures Inv(s)
  {
    var states, actions :| IsRun(states, actions) && states[0] == INITIAL && states[|actions|] == s;
    InitialInv();
    RunInv(states, actions, |actions|);
  }

  lemma ReachableNext(s: State, a: Action)
    requires Reachable(s) && Next(s, a).Some?
    ensures Reachable(Next(s, a).value)
  {
    var states, actions :| IsRun(states, actions) && states[0] == INITIAL && states[|actions|] == s;
    var t := Next(s, a).value;
    assert IsRun(states + [t], actions + [a]);
    assert (states + [t])[|actions + [a]|] == t;
  }

  /** The operation that an action belongs to. */
  function Actor(a: Action): Option<OpId> {
    match a
    case Begin(o, _) => Some(o)
    case Step(o, _) => Some(o)
    case Damage(_) => None
  }

  lemma ActionRely(s: State, a: Action)
    requires Inv(s) && Next(s, a).Some?
    ensures Inv(Next(s, a).value) && Rely(s, Next(s, a).value, Actor(a))
    ensures forall o | o in s.ops && Some(o) != Actor(a) :: o in Next(s, a).value.ops && Next(s, a).value.ops[o] == s.ops[o]
  {
    ActionInv(s, a);
    match a {
      case Begin(o, request) => BeginGood(s, o, request);
      case Step(o, c) => StepGood(s, o, c);
      case Damage(snap) => DamageRely(s, snap);
    }
  }

  // ---------------------------------------------------------------------------------- VM ownership

  datatype Claim = LaunchedBy(op: OpId) | EntryOf(id: SandboxId) | RemovedBy(op: OpId)

  predicate Claims(s: State, v: VmId, c: Claim) {
    match c
    case LaunchedBy(o) => o in s.ops && Launching(s.ops[o], v)
    case EntryOf(k) => k in s.sandboxes && s.sandboxes[k] == v
    case RemovedBy(o) => o in s.ops && HasRemoved(s.ops[o], v)
  }

  function ClaimOf(owner: Owner): Option<Claim> {
    match owner
    case InFlight(o) => Some(LaunchedBy(o))
    case Mapped(k) => Some(EntryOf(k))
    case Removed(o) => Some(RemovedBy(o))
    case Gone => None
  }

  lemma ClaimIsOwner(s: State, v: VmId, c: Claim)
    requires Inv(s) && v in s.vms && Claims(s, v, c)
    ensures ClaimOf(s.vms[v].owner) == Some(c)
  {
    match c {
      case LaunchedBy(o) => assert PcOk(s, o, s.ops[o]);
      case EntryOf(k) => assert KeyOk(s, k);
      case RemovedBy(o) => assert PcOk(s, o, s.ops[o]);
    }
  }

  /** A VM is terminated at most once, and while it has not been terminated exactly one party is
      responsible for it: the launch that spawned it, one map entry, or the one operation that
      took it out of the map. */
  lemma VmOwnership(s: State, v: VmId)
    requires Reachable(s) && v in s.vms
    ensures s.vms[v].kills <= 1
    ensures s.vms[v].kills == 0 <==> exists c :: Claims(s, v, c)
    ensures forall c, d | Claims(s, v, c) && Claims(s, v, d) :: c == d
  {
    ReachableInv(s);
    assert VmOk(s, v);
    forall c | Claims(s, v, c) ensures ClaimOf(s.vms[v].owner) == Some(c) { ClaimIsOwner(s, v, c); }
    if s.vms[v].kills == 0 {
      assert Claims(s, v, ClaimOf(s.vms[v].owner).value);
    }
  }

  /** Nothing is left behind: when every operation is over, the VMs not terminated are exactly the mapped ones. */
  lemma NothingLeftBehind(s: State, v: VmId)
    requires Reachable(s) && v in s.vms && forall o | o in s.ops :: s.ops[o].Finished?
    ensures s.vms[v].kills == 0 <==> exists k :: k in s.sandboxes && s.sandboxes[k] == v
  {
    VmOwnership(s, v);
    if s.vms[v].kills == 0 {
      var c :| Claims(s, v, c);
      assert c.EntryOf? && c.id in s.sandboxes;
    } else {
      forall k | k in s.sandboxes ensures s.sandboxes[k] != v { assert !Claims(s, v, EntryOf(k)); }
    }
  }

  // ---------------------------------------------------------------------------------- guest identity

  /** The window of a swap is one in which the record is locked. */
  lemma CommittingIsLocked(s: State, k: SandboxId)
    requires Committing(s, k) && PcOk(s, s.born[k], s.ops[s.born[k]])
    ensures s.sandboxes[k] in s.records && s.records[s.sandboxes[k]].lock.Some?
  {}

  /** And the guest of an entry that is being discarded was rekeyed for another id. */
  lemma DiscardingDisagrees(s: State, k: SandboxId)
    requires Discarding(s, k) && PcOk(s, s.born[k], s.ops[s.born[k]])
    ensures !Agrees(s, k)
  {}

  /** For an unlocked entry the guest carries the entry's own id and the record's token, unless a
      failing rollback is about to delete that very entry after its second rekey reached the guest;
      and in that window the guest always carries another id. */
  lemma IdentityAgreement(s: State, k: SandboxId)
    requires Reachable(s) && k in s.sandboxes
    requires s.sandboxes[k] in s.records && s.records[s.sandboxes[k]].lock.None?
    ensures Agrees(s, k) <==> !Discarding(s, k)
  {
    ReachableInv(s);
    assert KeyOk(s, k) && IdOk(s, k);
    if Discarding(s, k) { DiscardingDisagrees(s, k); }
    if Committing(s, k) { CommittingIsLocked(s, k); }
  }

  /** Every id ever returned to a caller agrees whenever its record is unlocked. */
  lemma IssuedAgree(s: State, k: SandboxId)
    requires Reachable(s) && k in s.sandboxes && k in s.issued
    requires s.sandboxes[k] in s.records && s.records[s.sandboxes[k]].lock.None?
    ensures Agrees(s, k)
  {
    IdentityAgreement(s, k);
    ReachableInv(s);
    assert PcOk(s, s.born[k], s.ops[s.born[k]]) by { assert IdOk(s, k); }
  }

  /** A restored VM accepts the artifact's token exactly when the capture did not read a record whose
      guest had been rekeyed behind the runtime's back; artifacts of ids known to callers always work. */
  lemma ArtifactAuthenticates(s: State, a: SnapId, id: SandboxId, tok: Token)
    requires Reachable(s) && a in s.arts
    ensures AcceptRekey(s.arts[a].memory, s.arts[a].token, id, tok)
         == (if s.arts[a].lost then None else Some(Keyed(id, Sha256(tok))))
    ensures s.arts[a].source in s.issued ==> !s.arts[a].lost
  {
    ReachableInv(s);
    assert ArtOk(s, a);
  }

  // ---------------------------------------------------------------------------------- deadlock

  /** The operation can take its next step now. */
  predicate CanStep(s: State, o: OpId) {
    o in s.ops && StepOp(s, o, Fine, s.ops[o]).Some?
  }

  /** Who holds the lock that `o` is waiting for. */
  function WaitsFor(s: State, o: OpId): Option<OpId>
    requires o in s.ops
  {
    match s.ops[o]
    case Delete(_, _, Await(v)) => RecordHolder(s, v)
    case WaitClone(a, _) => SnapshotHolder(s, a)
    case Rollback(_, src, LockSource(_)) => RecordHolder(s, src)
    case Rollback(_, _, LockSnapshot(a)) => SnapshotHolder(s, a)
    case Rollback(_, _, LockReplacement(_, v)) => RecordHolder(s, v)
    case Control(_, v, held) => if held then None else RecordHolder(s, v)
    case Capture(_, v, LockRecord) => RecordHolder(s, v)
    case InspectSnapshot(a, held) => if held then None else SnapshotHolder(s, a)
    case ListSnapshots(todo) => if todo == [] then None else SnapshotHolder(s, todo[0])
    case _ => None
  }

  function RecordHolder(s: State, v: VmId): Option<OpId> { if v in s.records then s.records[v].lock else None }

  function SnapshotHolder(s: State, a: SnapId): Option<OpId> { if a in s.arts then s.arts[a].lock else None }

  /** Following the waits from `o` at most `links` times leads to an operation that can step. */
  predicate Unblocked(s: State, o: OpId, links: nat)
    decreases links
  {
    o in s.ops
    && (CanStep(s, o) || (links > 0 && WaitsFor(s, o).Some? && Unblocked(s, WaitsFor(s, o).value, links - 1)))
  }

  /** The public id a rollback was asked for. */
  function RollbackTarget(pc: Pc): Option<SandboxId> {
    match pc
    case Rollback(target, _, _) => Some(target)
    case Launch(ForRollback(target, _, _), _, _) => Some(target)
    case Delete(UndoRollback(target, _, _), _, _) => Some(target)
    case _ => None
  }

  /** Callers roll back only ids that a call has returned. */
  predicate RollbacksKnown(s: State) {
    forall o | o in s.ops && RollbackTarget(s.ops[o]).Some? :: RollbackTarget(s.ops[o]).value in s.issued
  }

  /** An unfinished operation steps or waits for a held lock; no other outcome exists. */
  lemma StepsOrWaits(s: State, o: OpId)
    requires o in s.ops && PcOk(s, o, s.ops[o]) && KeysOk(s) && !s.ops[o].Finished?
    ensures CanStep(s, o) || WaitsFor(s, o).Some?
  {
    assert s.ops[o].Delete? && s.ops[o].id in s.sandboxes ==> KeyOk(s, s.ops[o].id);
  }

  /** The record of an id nobody has been told is held only by operations that can step. */
  lemma FreshHolderSteps(s: State, v: VmId, h: OpId)
    requires IdsOk(s) && KeysOk(s) && RollbacksKnown(s) && v in s.records && RecOk(s, v)
    requires s.records[v].lock == Some(h) && h in s.ops && PcOk(s, h, s.ops[h]) && s.records[v].home !in s.issued
    ensures CanStep(s, h)
  {
  }

  lemma SnapshotHolderSteps(s: State, a: SnapId, h: OpId)
    requires Inv(s) && RollbacksKnown(s) && a in s.arts && s.arts[a].lock == Some(h)
    ensures Unblocked(s, h, 1)
  {
    assert ArtOk(s, a) && PcOk(s, h, s.ops[h]);
    StepsOrWaits(s, h);
    match s.ops[h] {
      case Delete(UndoClone(_, batch, _), id, Await(v)) =>
        assert Pending(s, h, id);
        if s.records[v].lock.Some? {
          var g := s.records[v].lock.value;
          assert RecOk(s, v) && PcOk(s, g, s.ops[g]);
          FreshHolderSteps(s, v, g);
        }
      case _ =>
    }
  }

  lemma FreshWait(s: State, u: VmId, g: OpId)
    requires Inv(s) && RollbacksKnown(s) && u in s.records && s.records[u].lock == Some(g) && s.records[u].home !in s.issued
    ensures CanStep(s, g)
  {
    assert RecOk(s, u) && PcOk(s, g, s.ops[g]);
    FreshHolderSteps(s, u, g);
  }

  /** Whom a record's holder waits for is at most one wait away from a step. */
  lemma HolderWaits(s: State, v: VmId, h: OpId)
    requires Inv(s) && RollbacksKnown(s) && h in s.ops && HoldsRecord(s.ops[h], v) && WaitsFor(s, h).Some?
    ensures Unblocked(s, WaitsFor(s, h).value, 1)
  {
    assert PcOk(s, h, s.ops[h]);
    var g := WaitsFor(s, h).value;
    match s.ops[h]
    case Delete(_, _, Await(u)) => FreshWait(s, u, g);
    case Rollback(_, _, LockSnapshot(a)) => SnapshotHolderSteps(s, a, g);
    case Rollback(_, _, LockReplacement(_, u)) => FreshWait(s, u, g);
    case _ =>
  }

  lemma RecordHolderSteps(s: State, v: VmId, h: OpId)
    requires Inv(s) && RollbacksKnown(s) && v in s.records && s.records[v].lock == Some(h)
    ensures Unblocked(s, h, 2)
  {
    assert RecOk(s, v) && PcOk(s, h, s.ops[h]);
    StepsOrWaits(s, h);
    if WaitsFor(s, h).Some? { HolderWaits(s, v, h); }
  }

  /** No deadlock: as long as callers roll back only ids they were given, every unfinished operation
      is at most three waits away from one that can step. */
  lemma DeadlockFree(s: State, o: OpId)
    requires Reachable(s) && RollbacksKnown(s) && o in s.ops && !s.ops[o].Finished?
    ensures Unblocked(s, o, 3)
  {
    ReachableInv(s);
    assert PcOk(s, o, s.ops[o]);
    StepsOrWaits(s, o);
    if !CanStep(s, o) {
      var h := WaitsFor(s, o).value;
      match s.ops[o] {
        case Delete(_, _, Await(v)) => RecordHolderSteps(s, v, h);
        case WaitClone(a, _) => SnapshotHolderSteps(s, a, h);
        case Rollback(_, src, LockSource(_)) => RecordHolderSteps(s, src, h);
        case Rollback(_, _, LockSnapshot(a)) => SnapshotHolderSteps(s, a, h);
        case Rollback(_, _, LockReplacement(_, v)) => RecordHolderSteps(s, v, h);
        case Control(_, v, _) => RecordHolderSteps(s, v, h);
        case Capture(_, v, LockRecord) => RecordHolderSteps(s, v, h);
        case InspectSnapshot(a, _) => SnapshotHolderSteps(s, a, h);
        case ListSnapshots(todo) => SnapshotHolderSteps(s, todo[0], h);
      }
    }
  }

  /** Without that discipline: a failed clone batch waits for the record of one of its clones, which a
      rollback of that clone holds while it waits for the batch's own snapshot. */
  predicate Embraced(s: State, cloner: OpId, roller: OpId) {
    && cloner in s.ops && roller in s.ops
    && s.ops[cloner].Delete? && s.ops[cloner].cause.UndoClone? && s.ops[cloner].delete.Await?
    && s.ops[roller].Rollback? && s.ops[roller].rollback.LockSnapshot?
    && s.ops[roller].src == s.ops[cloner].delete.vm
    && s.ops[roller].rollback.snap == s.ops[cloner].cause.snap
  }

  /** The pair is as it was. */
  predicate Unmoved(s: State, t: State, cloner: OpId, roller: OpId) {
    && cloner in s.ops && cloner in t.ops && t.ops[cloner] == s.ops[cloner]
    && roller in s.ops && roller in t.ops && t.ops[roller] == s.ops[roller]
  }

  /** Each of the two locks is held. */
  lemma EmbraceLocks(s: State, cloner: OpId, roller: OpId)
    requires Inv(s) && Embraced(s, cloner, roller)
    ensures Known(s, s.ops[roller].src) && s.records[s.ops[roller].src].lock.Some?
    ensures s.ops[cloner].cause.snap in s.arts && s.arts[s.ops[cloner].cause.snap].lock.Some?
  {
    assert PcOk(s, cloner, s.ops[cloner]);
    assert PcOk(s, roller, s.ops[roller]);
  }

  lemma EmbraceStays(s: State, cloner: OpId, roller: OpId, a: Action)
    requires Embraced(s, cloner, roller) && Next(s, a).Some?
    requires Known(s, s.ops[roller].src) && s.records[s.ops[roller].src].lock.Some?
    requires s.ops[cloner].cause.snap in s.arts && s.arts[s.ops[cloner].cause.snap].lock.Some?
    ensures Unmoved(s, Next(s, a).value, cloner, roller)
  {}

  lemma EmbraceStep(s: State, cloner: OpId, roller: OpId, a: Action)
    requires Inv(s) && Embraced(s, cloner, roller) && Next(s, a).Some?
    ensures Unmoved(s, Next(s, a).value, cloner, roller)
  {
    EmbraceLocks(s, cloner, roller);
    EmbraceStays(s, cloner, roller, a);
  }

  lemma EmbraceAt(states: seq<State>, actions: seq<Action>, i: nat, cloner: OpId, roller: OpId)
    requires IsRun(states, actions) && states[0] == INITIAL && i < |actions| && Embraced(states[i], cloner, roller)
    ensures Unmoved(states[i], states[i + 1], cloner, roller)
  {
    InitialInv();
    RunInv(states, actions, i);
    EmbraceStep(states[i], cloner, roller, actions[i]);
  }

  /** Such a pair never moves again, whatever else happens. */
  lemma {:induction false} EmbraceIsForever(states: seq<State>, actions: seq<Action>, h: nat, i: nat, cloner: OpId, roller: OpId)
    requires IsRun(states, actions) && states[0] == INITIAL && h <= i < |states| && Embraced(states[h], cloner, roller)
    ensures Unmoved(states[h], states[i], cloner, roller)
    decreases i
  {
    if h < i {
      EmbraceIsForever(states, actions, h, i - 1, cloner, roller);
      EmbraceAt(states, actions, i - 1, cloner, roller);
    }
  }

  /** Its rollback targets an id that no call has returned: the discipline is what was missing. */
  lemma EmbraceBlocks(s: State, cloner: OpId, roller: OpId)
    requires Inv(s) && Embraced(s, cloner, roller)
    ensures !CanStep(s, cloner) && !CanStep(s, roller) && !RollbacksKnown(s)
  {
    EmbraceLocks(s, cloner, roller);
    assert PcOk(s, cloner, s.ops[cloner]);
    assert Pending(s, cloner, s.ops[cloner].id);
  }
}
