/** Theorems about whole runs: what one operation leaves alone, and what never comes back. */
module LifecycleHistory {
  import opened Core
  import opened Lifecycle
  import opened LifecycleInvariant
  import opened LifecyclePreservation
  import opened LifecycleTheorems

  // ---------------------------------------------------------------------------------- the sandbox map

  /** The step is `o`'s swap, and both pointer tests succeed. */
  predicate Commits(s: State, a: Action, o: OpId) {
    && a.Step? && a.op == o && o in s.ops && s.ops[o].Rollback? && s.ops[o].rollback.Swap?
    && SwapAllowed(s, s.ops[o].target, s.ops[o].src, s.ops[o].rollback.repl, s.ops[o].rollback.vm)
  }

  predicate SameEntry(s: State, t: State, k: SandboxId) {
    (k in s.sandboxes <==> k in t.sandboxes) && (k in s.sandboxes ==> t.sandboxes[k] == s.sandboxes[k])
  }

  /** Which steps touch the id maps at all. */
  lemma StepIds(s: State, o: OpId, c: Choice)
    requires o in s.ops && StepOp(s, o, c, s.ops[o]).Some?
    ensures var pc, ids := s.ops[o], StepOp(s, o, c, s.ops[o]).value.ids;
      match ids
      case MapNew(id, v) => pc.Launch? && pc.id == id && pc.launch.Insert? && pc.launch.vm == v
      case Unmap(id) => pc.Delete? && pc.id == id && pc.delete.Remove? && id in s.sandboxes
      case Exchange(target, repl, v, _) =>
        Commits(s, Step(o, c), o) && pc.target == target && pc.rollback.repl == repl && pc.rollback.vm == v
      case _ => true
  {
  }

  /** What a step of counter `pc` did to entry `k`. */
  predicate Inserted(s: State, t: State, pc: Pc, k: SandboxId) {
    && pc.Launch? && pc.launch.Insert? && pc.id == k && k !in s.sandboxes && k !in s.retired
    && k in t.sandboxes && t.sandboxes[k] == pc.launch.vm
  }

  predicate Unmapped(s: State, t: State, pc: Pc, k: SandboxId) {
    pc.Delete? && pc.delete.Remove? && pc.id == k && k in s.sandboxes && k !in t.sandboxes && k in t.retired
  }

  predicate Repointed(s: State, t: State, pc: Pc, k: SandboxId) {
    && pc.Rollback? && pc.rollback.Swap? && SwapAllowed(s, pc.target, pc.src, pc.rollback.repl, pc.rollback.vm)
    && ((pc.target == k && k in t.sandboxes && t.sandboxes[k] == pc.rollback.vm)
        || (pc.rollback.repl == k && k !in t.sandboxes && k in t.retired))
  }

  lemma BeginIds(s: State, o: OpId, request: Request)
    ensures BeginOp(s, o, request).ids.Same? || BeginOp(s, o, request).ids.Bear?
  {
  }

  lemma OnlyStepsChange(s: State, a: Action, k: SandboxId)
    requires Next(s, a).Some? && !a.Step?
    ensures SameEntry(s, Next(s, a).value, k)
  {
    if a.Begin? { BeginIds(s, a.op, a.request); }
  }

  /** All that can happen to an entry: a launch inserts it, a delete removes it, or a committing
      rollback either points it at the replacement or drops it because it was the replacement's. */
  lemma EntryChange(s: State, a: Action, k: SandboxId)
    requires Inv(s) && Next(s, a).Some? && !SameEntry(s, Next(s, a).value, k)
    ensures a.Step? && a.op in s.ops
    ensures var t, pc := Next(s, a).value, s.ops[a.op];
      Inserted(s, t, pc, k) || Unmapped(s, t, pc, k) || Repointed(s, t, pc, k)
  {
    if a.Step? { StepEntry(s, a.op, a.choice, k); } else { OnlyStepsChange(s, a, k); }
  }

  lemma StepEntry(s: State, o: OpId, c: Choice, k: SandboxId)
    requires Inv(s) && o in s.ops && StepOp(s, o, c, s.ops[o]).Some?
    ensures var t, pc := Apply(s, o, StepOp(s, o, c, s.ops[o]).value), s.ops[o];
      SameEntry(s, t, k) || Inserted(s, t, pc, k) || Unmapped(s, t, pc, k) || Repointed(s, t, pc, k)
  {
    StepIds(s, o, c);
    StepChange(s, o, StepOp(s, o, c, s.ops[o]).value, k);
    if s.ops[o].Launch? && s.ops[o].launch.Insert? { InsertIsFresh(s, o); }
  }

  lemma InsertIsFresh(s: State, o: OpId)
    requires Inv(s) && o in s.ops && s.ops[o].Launch? && s.ops[o].launch.Insert?
    ensures s.ops[o].id !in s.sandboxes && s.ops[o].id !in s.retired
  {
    assert PcOk(s, o, s.ops[o]);
  }

  lemma StepChange(s: State, o: OpId, e: Effect, k: SandboxId)
    ensures var t := Apply(s, o, e);
      SameEntry(s, t, k)
      || (e.ids.MapNew? && e.ids.id == k && k in t.sandboxes && t.sandboxes[k] == e.ids.vm)
      || (e.ids.Unmap? && e.ids.id == k && k !in t.sandboxes && k in t.retired)
      || (e.ids.Exchange? && e.ids.target == k && k in t.sandboxes && t.sandboxes[k] == e.ids.vm)
      || (e.ids.Exchange? && e.ids.target != k && e.ids.repl == k && k !in t.sandboxes && k in t.retired)
  {
  }

  /** The id of the replacement VM of a rollback under way. */
  function Replacement(pc: Pc): Option<SandboxId> {
    match pc
    case Launch(_, id, _) => Some(id)
    case Delete(_, id, _) => Some(id)
    case Rollback(_, _, phase) =>
      (match phase
       case FetchReplacement(repl) => Some(repl)
       case LockReplacement(repl, _) => Some(repl)
       case RekeyReplacement(repl, _, _) => Some(repl)
       case Swap(repl, _) => Some(repl)
       case Retire(repl) => Some(repl)
       case GiveUp(repl) => Some(repl)
       case _ => None)
    case _ => None
  }

  /** Until it commits, a rollback changes no entry but that of its own replacement; committing
      changes, besides that one, only the record its public id maps to. */
  lemma RollbackTouches(s: State, a: Action, k: SandboxId)
    requires Inv(s) && Next(s, a).Some? && a.Step? && a.op in s.ops && RollbackTarget(s.ops[a.op]).Some?
    requires Replacement(s.ops[a.op]) != Some(k)
    ensures SameEntry(s, Next(s, a).value, k)
         || (Commits(s, a, a.op) && RollbackTarget(s.ops[a.op]) == Some(k) && k in s.sandboxes && k in Next(s, a).value.sandboxes)
  {
    assert PcOk(s, a.op, s.ops[a.op]);
    if !SameEntry(s, Next(s, a).value, k) {
      EntryChange(s, a, k);
    }
  }

  /** A rollback that committed ends in success. */
  predicate Committed(pc: Pc) {
    (pc.Rollback? && pc.rollback.Retire?) || (pc.Finished? && pc.outcome.RollbackOk?)
  }

  lemma CommittedStays(s: State, a: Action, o: OpId)
    requires Next(s, a).Some? && o in s.ops && Committed(s.ops[o])
    ensures o in Next(s, a).value.ops && Committed(Next(s, a).value.ops[o])
  {
  }

  lemma {:induction false} CommitIsFinal(states: seq<State>, actions: seq<Action>, i: nat, j: nat, o: OpId)
    requires IsRun(states, actions) && i < j < |states| && Commits(states[i], actions[i], o)
    ensures o in states[j].ops && Committed(states[j].ops[o])
    decreases j
  {
    if i < j - 1 {
      CommitIsFinal(states, actions, i, j - 1, o);
      CommittedStays(states[j - 1], actions[j - 1], o);
    } else {
      CommitMoves(states[i], actions[i], o);
    }
  }

  lemma CommitMoves(s: State, a: Action, o: OpId)
    requires Commits(s, a, o) && Next(s, a).Some?
    ensures o in Next(s, a).value.ops && Committed(Next(s, a).value.ops[o])
  {
  }

  /** A failed rollback is as if it had not happened to the map: none of its steps committed, and
      the id of a replacement it launched is not mapped when it ends. */
  lemma FailedRollback(states: seq<State>, actions: seq<Action>, i: nat, o: OpId)
    requires IsRun(states, actions) && states[0] == INITIAL && i < |actions|
    requires var last := states[|actions|]; o in last.ops && last.ops[o].Finished? && last.ops[o].outcome.RollbackErr?
    ensures !Commits(states[i], actions[i], o)
    ensures var last := states[|actions|];
      last.ops[o].outcome.undone.Some? ==> last.ops[o].outcome.undone.value !in last.sandboxes
  {
    var last := states[|actions|];
    if Commits(states[i], actions[i], o) {
      CommitIsFinal(states, actions, i, |actions|, o);
    }
    InitialInv();
    RunInv(states, actions, |actions|);
    if last.ops[o].outcome.undone.Some? {
      RetiredUnmapped(last, o);
    }
  }

  lemma RetiredUnmapped(s: State, o: OpId)
    requires KeysOk(s) && o in s.ops && PcOk(s, o, s.ops[o]) && s.ops[o].Finished? && s.ops[o].outcome.RollbackErr? && s.ops[o].outcome.undone.Some?
    ensures s.ops[o].outcome.undone.value !in s.sandboxes
  {
    var x := s.ops[o].outcome.undone.value;
    assert x in s.sandboxes ==> KeyOk(s, x);
  }

  /** The step is the first of a deletion that somebody asked for, and removes `k`. */
  predicate Deletes(s: State, a: Action, k: SandboxId) {
    a.Step? && a.op in s.ops && s.ops[a.op] == Delete(Asked, k, Remove) && k in s.sandboxes
  }

  /** The step is the committing swap of a rollback of `k`. */
  predicate SwapsIn(s: State, a: Action, k: SandboxId) {
    a.Step? && Commits(s, a, a.op) && s.ops[a.op].target == k
  }

  /** An id that a caller knows is unmapped only by a deletion of it, and points to another record only
      after a committing rollback of it. */
  lemma PublicEntry(s: State, a: Action, k: SandboxId)
    requires Inv(s) && Next(s, a).Some? && k in s.sandboxes && k in s.issued
    ensures var t := Next(s, a).value;
      && (k in t.sandboxes || Deletes(s, a, k))
      && (k in t.sandboxes && t.sandboxes[k] != s.sandboxes[k] ==> SwapsIn(s, a, k))
  {
    if !SameEntry(s, Next(s, a).value, k) {
      EntryChange(s, a, k);
      assert PcOk(s, a.op, s.ops[a.op]);
      PublicOwner(s, a.op, k);
    }
  }

  /** No internal clean-up has hold of such an id. */
  lemma PublicOwner(s: State, o: OpId, k: SandboxId)
    requires IdsOk(s) && o in s.ops && PcOk(s, o, s.ops[o]) && k in s.issued
    ensures s.ops[o].Delete? && s.ops[o].id == k ==> s.ops[o].cause.Asked?
    ensures s.ops[o].Rollback? && s.ops[o].rollback.Swap? ==> s.ops[o].rollback.repl != k
  {}

  lemma PublicAt(states: seq<State>, actions: seq<Action>, i: nat, k: SandboxId)
    requires IsRun(states, actions) && states[0] == INITIAL && i < |actions|
    requires k in states[i].sandboxes && k in states[i].issued
    ensures k in states[i + 1].issued && (k in states[i + 1].sandboxes || Deletes(states[i], actions[i], k))
    ensures k in states[i + 1].sandboxes && states[i + 1].sandboxes[k] != states[i].sandboxes[k]
            ==> SwapsIn(states[i], actions[i], k)
  {
    InitialInv();
    RunInv(states, actions, i);
    PublicEntry(states[i], actions[i], k);
    ActionRely(states[i], actions[i]);
    assert RelyId(states[i], states[i + 1], Actor(actions[i]), k);
  }

  predicate Public(s: State, k: SandboxId) { k in s.sandboxes && k in s.issued }

  lemma PublicNext(states: seq<State>, actions: seq<Action>, i: nat, k: SandboxId)
    requires IsRun(states, actions) && states[0] == INITIAL && i < |actions|
    requires Public(states[i], k) && !Deletes(states[i], actions[i], k)
    ensures Public(states[i + 1], k)
  {
    PublicAt(states, actions, i, k);
  }

  /** The public id stays mapped through everything, rollbacks included, until somebody deletes it. */
  lemma {:induction false} PublicIdStaysMapped(states: seq<State>, actions: seq<Action>, i: nat, j: nat, k: SandboxId)
    requires IsRun(states, actions) && states[0] == INITIAL && i <= j < |states| && Public(states[i], k)
    requires forall h {:trigger actions[h]} | i <= h < j :: !Deletes(states[h], actions[h], k)
    ensures Public(states[j], k)
    decreases j
  {
    if i < j {
      PublicIdStaysMapped(states, actions, i, j - 1, k);
      PublicNext(states, actions, j - 1, k);
    }
  }

  /** And to the same record until a rollback of it commits. */
  lemma {:induction false} PublicIdKeepsRecord(states: seq<State>, actions: seq<Action>, i: nat, j: nat, k: SandboxId)
    requires IsRun(states, actions) && states[0] == INITIAL && i <= j < |states|
    requires Public(states[i], k)
    requires forall h {:trigger actions[h]} | i <= h < j :: !Deletes(states[h], actions[h], k)
    requires forall h {:trigger actions[h]} | i <= h < j :: !SwapsIn(states[h], actions[h], k)
    ensures k in states[j].sandboxes && states[j].sandboxes[k] == states[i].sandboxes[k]
    decreases j
  {
    PublicIdStaysMapped(states, actions, i, j, k);
    if i < j {
      PublicIdKeepsRecord(states, actions, i, j - 1, k);
      PublicIdStaysMapped(states, actions, i, j - 1, k);
      PublicAt(states, actions, j - 1, k);
    }
  }

  /** An id that was mapped once and is no longer mapped is never mapped again. */
  lemma NeverMappedAgain(states: seq<State>, actions: seq<Action>, h: nat, i: nat, j: nat, x: SandboxId)
    requires IsRun(states, actions) && states[0] == INITIAL && h <= i <= j < |states|
    requires x in states[h].sandboxes && x !in states[i].sandboxes
    ensures x !in states[j].sandboxes
  {
    MappedThenRetired(states, actions, h, i, x);
    RetiredForever(states, actions, i, j, x);
  }

  lemma RetiredStep(s: State, a: Action, x: SandboxId)
    requires Inv(s) && Next(s, a).Some?
    ensures x in s.retired ==> x in Next(s, a).value.retired && x !in Next(s, a).value.sandboxes
    ensures MappedOrRetired(s, x) ==> MappedOrRetired(Next(s, a).value, x)
  {
    var t := Next(s, a).value;
    ActionRely(s, a);
    assert x in s.sandboxes ==> KeyOk(s, x);
    assert x in t.sandboxes ==> KeyOk(t, x);
    assert x in s.born ==> RelyId(s, t, Actor(a), x);
  }

  lemma RetiredAt(states: seq<State>, actions: seq<Action>, i: nat, x: SandboxId)
    requires IsRun(states, actions) && states[0] == INITIAL && i < |actions|
    ensures x in states[i].retired ==> x in states[i + 1].retired && x !in states[i + 1].sandboxes
    ensures MappedOrRetired(states[i], x) ==> MappedOrRetired(states[i + 1], x)
  {
    InitialInv();
    RunInv(states, actions, i);
    RetiredStep(states[i], actions[i], x);
  }

  lemma RetiredIsUnmapped(states: seq<State>, actions: seq<Action>, i: nat, x: SandboxId)
    requires IsRun(states, actions) && states[0] == INITIAL && i < |states| && x in states[i].retired
    ensures x !in states[i].sandboxes
  {
    InitialInv();
    RunInv(states, actions, i);
    assert x in states[i].sandboxes ==> KeyOk(states[i], x);
  }

  lemma {:induction false} RetiredForever(states: seq<State>, actions: seq<Action>, i: nat, j: nat, x: SandboxId)
    requires IsRun(states, actions) && states[0] == INITIAL && i <= j < |states| && x in states[i].retired
    ensures x in states[j].retired && x !in states[j].sandboxes
    decreases j
  {
    if i < j {
      RetiredForever(states, actions, i, j - 1, x);
      RetiredAt(states, actions, j - 1, x);
    } else {
      RetiredIsUnmapped(states, actions, i, x);
    }
  }

  lemma {:induction false} MappedThenRetired(states: seq<State>, actions: seq<Action>, h: nat, i: nat, x: SandboxId)
    requires IsRun(states, actions) && states[0] == INITIAL && h <= i < |states| && MappedOrRetired(states[h], x)
    ensures MappedOrRetired(states[i], x)
    decreases i
  {
    if h < i {
      MappedThenRetired(states, actions, h, i - 1, x);
      RetiredAt(states, actions, i - 1, x);
    }
  }

  // ---------------------------------------------------------------------------------- dead records

  predicate DeadRecord(s: State, v: VmId) { v in s.records && Dead(s.records[v].state) }

  lemma DeadAt(states: seq<State>, actions: seq<Action>, i: nat, v: VmId)
    requires IsRun(states, actions) && states[0] == INITIAL && i < |actions| && DeadRecord(states[i], v)
    ensures DeadRecord(states[i + 1], v)
  {
    InitialInv();
    RunInv(states, actions, i);
    ActionRely(states[i], actions[i]);
    assert RelyRec(states[i], states[i + 1], Actor(actions[i]), v);
  }

  /** Deleting, Deleted and Failed are never left. */
  lemma {:induction false} DeadForever(states: seq<State>, actions: seq<Action>, i: nat, j: nat, v: VmId)
    requires IsRun(states, actions) && states[0] == INITIAL && i <= j < |states| && DeadRecord(states[i], v)
    ensures DeadRecord(states[j], v)
    decreases j
  {
    if i < j {
      DeadForever(states, actions, i, j - 1, v);
      DeadAt(states, actions, j - 1, v);
    }
  }

  /** The VM that the next step of a pause, resume or snapshot sends a command to. */
  function Commands(pc: Pc): Option<VmId> {
    match pc
    case Control(_, v, held) => if held then Some(v) else None
    case Capture(_, v, phase) => if phase.LockRecord? || phase.Publish? then None else Some(v)
    case _ => None
  }

  /** No VM is commanded once its termination has begun. */
  lemma CommandsReachLiveVms(s: State, o: OpId)
    requires Reachable(s) && o in s.ops && Commands(s.ops[o]).Some?
    ensures var v := Commands(s.ops[o]).value;
      v in s.records && v in s.vms && Live(s.records[v].state) && s.vms[v].kills == 0
      && (forall p | p in s.ops && s.ops[p].Delete? :: s.ops[p].delete != Kill(v))
  {
    ReachableInv(s);
    assert PcOk(s, o, s.ops[o]);
    var v := Commands(s.ops[o]).value;
    assert RecOk(s, v);
    forall p | p in s.ops && s.ops[p].Delete? ensures s.ops[p].delete != Kill(v) { assert PcOk(s, p, s.ops[p]); }
  }

  /** The operation has fetched record `v` and waits for its lock. */
  predicate AboutToLock(pc: Pc, v: VmId) {
    || pc == Control(PauseIt, v, false) || pc == Control(ResumeIt, v, false) || pc == Control(LookUp, v, false)
    || (pc.Capture? && pc.vm == v && pc.capture.LockRecord?)
    || (pc.Rollback? && pc.src == v && pc.rollback.LockSource?)
  }

  /** Whoever fetched a record before it died and locks it afterwards is turned away and changes nothing. */
  lemma StaleRecordsAreInert(s: State, o: OpId, c: Choice, v: VmId)
    requires o in s.ops && AboutToLock(s.ops[o], v) && v in s.records && Dead(s.records[v].state)
    requires StepOp(s, o, c, s.ops[o]).Some?
    ensures var e := StepOp(s, o, c, s.ops[o]).value;
      && e.rec.Keep? && e.vm.Keep? && e.art.Keep? && e.ids.Same?
      && e.pc.Finished? && (e.pc.outcome == Plain(false) || e.pc.outcome.RollbackErr?)
  {
  }

  // ---------------------------------------------------------------------------------- leases and clones

  /** Nothing that others do changes an artifact, or removes it from disk, while its lease is held. */
  lemma LeaseProtects(s: State, a: Action, art: SnapId, o: OpId)
    requires Inv(s) && Next(s, a).Some? && LeasedBy(s, art, o) && Actor(a) != Some(o)
    ensures LeasedBy(Next(s, a).value, art, o) && Next(s, a).value.arts[art] == s.arts[art]
  {
    ActionRely(s, a);
    assert RelyArt(s, Next(s, a).value, Actor(a), art);
  }

  /** Every clone and every rollback launches from an artifact it leases and has verified. */
  lemma LaunchesFromVerified(s: State, o: OpId)
    requires Reachable(s) && o in s.ops && s.ops[o].Launch? && !s.ops[o].purpose.ForCreate?
    ensures LeasedBy(s, s.ops[o].purpose.snap, o) && s.arts[s.ops[o].purpose.snap].intact
  {
    ReachableInv(s);
    assert PcOk(s, o, s.ops[o]);
  }

  /** The ids that an operation still answers for, or has handed to its caller. */
  predicate AnswersFor(pc: Pc, x: SandboxId) {
    match pc
    case Launch(p, id, phase) => (phase.Return? && x == id) || (p.ForClone? && x in p.done)
    case Delete(cause, id, _) => (cause.UndoClone? && (x == id || x in cause.todo)) || (cause.UndoRollback? && x == id)
    case Rollback(_, _, phase) => Replacement(pc) == Some(x) && !phase.Retire? && !phase.GiveUp?
    case Finished(CreateOk(id)) => x == id
    case Finished(CloneOk(ids)) => x in ids
    case _ => false
  }

  predicate Accounted(s: State) {
    forall k | k in s.sandboxes :: k in s.born && s.born[k] in s.ops && AnswersFor(s.ops[s.born[k]], k)
  }

  lemma LaunchAnswers(s: State, o: OpId, c: Choice, p: Purpose, id: SandboxId, phase: LaunchPhase, k: SandboxId)
    requires s.next !in s.born && LaunchOk(s, o, p, id, phase) && LaunchStep(s, o, c, p, id, phase).Some? && k in s.born
    requires AnswersFor(Launch(p, id, phase), k) || (phase.Insert? && k == id)
    requires k in Apply(s, o, LaunchStep(s, o, c, p, id, phase).value).sandboxes
    ensures AnswersFor(LaunchStep(s, o, c, p, id, phase).value.pc, k)
  {
  }

  lemma DeleteAnswers(s: State, o: OpId, c: Choice, cause: Cause, id: SandboxId, phase: DeletePhase, k: SandboxId)
    requires KeysOk(s) && DeleteOk(s, o, cause, id, phase) && DeleteStep(s, o, c, cause, id, phase).Some?
    requires AnswersFor(Delete(cause, id, phase), k)
    requires k in Apply(s, o, DeleteStep(s, o, c, cause, id, phase).value).sandboxes
    ensures AnswersFor(DeleteStep(s, o, c, cause, id, phase).value.pc, k)
  {
    assert id in s.sandboxes ==> KeyOk(s, id);
  }

  lemma RollbackAnswers(s: State, o: OpId, c: Choice, target: SandboxId, src: VmId, phase: RollbackPhase, k: SandboxId)
    requires o in s.ops && s.ops[o] == Rollback(target, src, phase) && RollbackPcOk(s, o, target, src, phase)
    requires StepOp(s, o, c, s.ops[o]).Some? && AnswersFor(s.ops[o], k)
    requires k in Apply(s, o, StepOp(s, o, c, s.ops[o]).value).sandboxes
    ensures AnswersFor(StepOp(s, o, c, s.ops[o]).value.pc, k)
  {
  }

  lemma AccountedStep(s: State, o: OpId, c: Choice, k: SandboxId)
    requires Inv(s) && o in s.ops && StepOp(s, o, c, s.ops[o]).Some?
    requires k in Apply(s, o, StepOp(s, o, c, s.ops[o]).value).sandboxes
    requires k in s.born && (AnswersFor(s.ops[o], k) || (s.ops[o].Launch? && s.ops[o].launch.Insert? && k == s.ops[o].id))
    ensures AnswersFor(StepOp(s, o, c, s.ops[o]).value.pc, k)
  {
    assert PcOk(s, o, s.ops[o]);
    match s.ops[o] {
      case Launch(p, id, phase) =>
        NextIsFresh(s);
        LaunchAnswers(s, o, c, p, id, phase, k);
      case Delete(cause, id, phase) => DeleteAnswers(s, o, c, cause, id, phase, k);
      case Rollback(target, src, phase) => RollbackAnswers(s, o, c, target, src, phase, k);
    }
  }

  lemma AccountedKey(s: State, a: Action, k: SandboxId)
    requires Inv(s) && Accounted(s) && Next(s, a).Some? && k in Next(s, a).value.sandboxes
    ensures var t := Next(s, a).value; k in t.born && t.born[k] in t.ops && AnswersFor(t.ops[t.born[k]], k)
  {
    var t := Next(s, a).value;
    ActionRely(s, a);
    if SameEntry(s, t, k) {
      assert KeyOk(s, k);
    } else {
      EntryChange(s, a, k);
      assert PcOk(s, a.op, s.ops[a.op]);
      assert k in s.sandboxes ==> KeyOk(s, k);
    }
    assert k in s.born && IdOk(s, k) && RelyId(s, t, Actor(a), k);
    if a.Step? && s.born[k] == a.op {
      AccountedStep(s, a.op, a.choice, k);
    }
  }

  lemma {:induction false} RunAccounted(states: seq<State>, actions: seq<Action>, i: nat)
    requires IsRun(states, actions) && states[0] == INITIAL && i < |states|
    ensures Accounted(states[i])
  {
    if i > 0 {
      RunAccounted(states, actions, i - 1);
      InitialInv();
      RunInv(states, actions, i - 1);
      var s := states[i - 1];
      forall k | k in states[i].sandboxes
        ensures k in states[i].born && states[i].born[k] in states[i].ops && AnswersFor(states[i].ops[states[i].born[k]], k)
      {
        AccountedKey(s, actions[i - 1], k);
      }
    }
  }

  /** No orphan inside the runtime: a mapped id was returned to the caller of the operation that
      launched it, or that operation is still running and answers for it. */
  lemma NoOrphan(s: State, k: SandboxId)
    requires Reachable(s) && k in s.sandboxes
    ensures k in s.born && s.born[k] in s.ops
    ensures s.ops[s.born[k]].Finished? ==>
      var out := s.ops[s.born[k]].outcome; out == CreateOk(k) || (out.CloneOk? && k in out.ids)
  {
    var states, actions :| IsRun(states, actions) && states[0] == INITIAL && states[|actions|] == s;
    RunAccounted(states, actions, |actions|);
  }

  /** A failed rollback leaves no id mapped that it launched, wherever it failed. */
  lemma FailedRollbackLeavesNothing(s: State, o: OpId, k: SandboxId)
    requires Reachable(s) && o in s.ops && s.ops[o].Finished? && s.ops[o].outcome.RollbackErr?
    requires k in s.born && s.born[k] == o
    ensures k !in s.sandboxes
  {
    if k in s.sandboxes { NoOrphan(s, k); }
  }

  /** A failed clone leaves none of the batch mapped: no id it launched, at whatever position it failed. */
  lemma FailedCloneLeavesNothing(s: State, o: OpId, k: SandboxId)
    requires Reachable(s) && o in s.ops && s.ops[o].Finished? && s.ops[o].outcome.CloneErr?
    requires k in s.born && s.born[k] == o
    ensures k !in s.sandboxes
  {
    if k in s.sandboxes { NoOrphan(s, k); }
  }

  /** How far a clone of `count` sandboxes from `snap` can have got. */
  predicate Cloning(pc: Pc, snap: SnapId, count: nat) {
    match pc
    case WaitClone(a, want) => a == snap && want == count
    case VerifyClone(a, want) => a == snap && want == count
    case Launch(p, _, _) => p.ForClone? && p.snap == snap && p.want == count && |p.done| < count
    case Delete(cause, _, _) => cause.UndoClone? && cause.snap == snap
    case Finished(CloneOk(ids)) => |ids| == count
    case Finished(CloneErr(_)) => true
    case _ => false
  }

  lemma CloningOwn(s: State, o: OpId, c: Choice, snap: SnapId, count: nat)
    requires o in s.ops && Cloning(s.ops[o], snap, count) && StepOp(s, o, c, s.ops[o]).Some? && 1 <= count
    ensures Cloning(StepOp(s, o, c, s.ops[o]).value.pc, snap, count)
  {
    match s.ops[o]
    case Launch(p, id, phase) => CloningLaunch(s, o, c, p, id, phase, snap, count);
    case _ =>
  }

  lemma CloningLaunch(
      s: State, o: OpId, c: Choice, p: Purpose, id: SandboxId, phase: LaunchPhase, snap: SnapId, count: nat)
    requires Cloning(Launch(p, id, phase), snap, count) && LaunchStep(s, o, c, p, id, phase).Some? && 1 <= count
    ensures Cloning(LaunchStep(s, o, c, p, id, phase).value.pc, snap, count)
  {
  }

  lemma CloningStep(s: State, a: Action, o: OpId, snap: SnapId, count: nat)
    requires o in s.ops && Cloning(s.ops[o], snap, count) && Next(s, a).Some? && 1 <= count
    ensures o in Next(s, a).value.ops && Cloning(Next(s, a).value.ops[o], snap, count)
  {
    if a.Step? && a.op == o { CloningOwn(s, o, a.choice, snap, count); }
  }

  lemma CloningBegins(s: State, o: OpId, snap: SnapId, count: nat)
    requires Next(s, Begin(o, Clone(snap, count))).Some?
    ensures o in Next(s, Begin(o, Clone(snap, count))).value.ops
    ensures var pc := Next(s, Begin(o, Clone(snap, count))).value.ops[o];
      (Cloning(pc, snap, count) && 1 <= count) || pc == Finished(CloneErr([]))
  {
  }

  lemma {:induction false} CloneProgress(states: seq<State>, actions: seq<Action>, i: nat, j: nat, o: OpId, snap: SnapId, count: nat)
    requires IsRun(states, actions) && i < j < |states| && actions[i] == Begin(o, Clone(snap, count))
    ensures o in states[j].ops
    ensures (Cloning(states[j].ops[o], snap, count) && 1 <= count) || states[j].ops[o] == Finished(CloneErr([]))
    decreases j
  {
    if i < j - 1 {
      CloneProgress(states, actions, i, j - 1, o, snap, count);
      if states[j - 1].ops[o] != Finished(CloneErr([])) {
        CloningStep(states[j - 1], actions[j - 1], o, snap, count);
      } else {
        FinishedStays(states[j - 1], actions[j - 1], o);
      }
    } else {
      CloningBegins(states[i], o, snap, count);
    }
  }

  lemma FinishedStays(s: State, a: Action, o: OpId)
    requires o in s.ops && s.ops[o].Finished? && Next(s, a).Some?
    ensures o in Next(s, a).value.ops && Next(s, a).value.ops[o] == s.ops[o]
  {
  }

  /** A successful clone returns exactly as many ids as were asked for, all distinct, all launched by
      this very call, each mapped unless somebody has removed it since. */
  lemma SuccessfulClone(states: seq<State>, actions: seq<Action>, i: nat, o: OpId, snap: SnapId, count: nat)
    requires IsRun(states, actions) && states[0] == INITIAL && i < |actions| && actions[i] == Begin(o, Clone(snap, count))
    requires var last := states[|actions|]; o in last.ops && last.ops[o].Finished? && last.ops[o].outcome.CloneOk?
    ensures var last := states[|actions|]; var ids := last.ops[o].outcome.ids;
      && |ids| == count && Distinct(ids)
      && forall n | 0 <= n < |ids| ::
           ids[n] in last.born && last.born[ids[n]] == o && (ids[n] in last.sandboxes || ids[n] in last.retired)
  {
    CloneProgress(states, actions, i, |actions|, o, snap, count);
    InitialInv();
    RunInv(states, actions, |actions|);
    var last := states[|actions|];
    assert PcOk(last, o, last.ops[o]);
  }
}
