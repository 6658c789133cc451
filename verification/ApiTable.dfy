/**
The API's sandbox records on top of the runtime's lifecycle.

Every API call makes one runtime call, so both share one number. A call's steps are its accesses to
the record table and the moment it learns how its runtime call ended; between them the runtime and
other calls go on. Tokens, expiry and audit writes are not modelled: a call on a sandbox is let in
whenever the sandbox has a record. A create that takes a prewarmed sandbox goes on under the number of
the launch that prewarmed it.
*/
module ApiTable {
  import opened Core
  import opened GuestAgent
  import opened Lifecycle
  import opened LifecycleInvariant
  import opened LifecycleTheorems
  import opened LifecycleHistory

  /** What a call does once its runtime call is over. */
  datatype Goal =
    | Register                            // create, restore, clone
    | Stock                               // prewarming
    | Forget(id: SandboxId)               // delete, by a user or the reaper
    | Settle(id: SandboxId, next: SandboxState)
    | Refresh(id: SandboxId)              // rollback
    | Answer

  datatype Call =
    | Waiting(goal: Goal)
    | Registering(ids: seq<SandboxId>)
    | Pooled(id: SandboxId)               // in the ready pool until a create takes it
    | Marking(id: SandboxId)              // the runtime has deleted `id`; `Deleted` is next
    | Forgetting(id: SandboxId)           // the record is next
    | Settling(id: SandboxId, next: SandboxState)
    | Refreshing(id: SandboxId)
    | Closed

  datatype Api = Api(rt: State, records: map<SandboxId, SandboxState>, calls: map<OpId, Call>)

  const EMPTY := Api(INITIAL, map[], map[])

  datatype Move = Prewarm(call: OpId) | Open(call: OpId, request: Request) | Advance(call: OpId) | Inside(step: Action)

  // ------------------------------------------------------------------------------------ the steps

  /** `transition`: the table's own state machine decides. */
  function Transition(records: map<SandboxId, SandboxState>, id: SandboxId, next: SandboxState):
    Option<map<SandboxId, SandboxState>>
  {
    if id in records && CanTransition(records[id], next) then Some(records[id := next]) else None
  }

  /** The records after a call was let in, or `None` if it is turned away before it reaches the runtime. */
  function Admit(records: map<SandboxId, SandboxState>, request: Request): Option<map<SandboxId, SandboxState>> {
    match request
    case Create => Some(records)
    case Clone(_, count) => if 1 <= count <= 32 then Some(records) else None
    case RollBack(target, _) => if target in records then Some(records) else None
    case DeleteSandbox(id) => Transition(records, id, Deleting)
    case ControlSandbox(PauseIt, id) => Transition(records, id, Pausing)
    case ControlSandbox(ResumeIt, id) => Transition(records, id, Resuming)
    case ControlSandbox(LookUp, id) => if id in records && records[id] == Running then Some(records) else None
    case CreateSnapshot(id) => if id in records then Some(records) else None
    case ReadSnapshot(_) => Some(records)
    case ListThem(id, _) => if id in records then Some(records) else None
    case DeleteSnapshot(_) => Some(records)
  }

  function GoalOf(request: Request): Goal {
    match request
    case Create => Register
    case Clone(_, _) => Register
    case RollBack(target, _) => Refresh(target)
    case DeleteSandbox(id) => Forget(id)
    case ControlSandbox(PauseIt, id) => Settle(id, Paused)
    case ControlSandbox(ResumeIt, id) => Settle(id, Running)
    case _ => Answer
  }

  /** How a call goes on when its runtime call ended with `outcome`. */
  function Continue(goal: Goal, outcome: Outcome): Call {
    match goal
    case Register =>
      (match outcome
       case CreateOk(id) => Registering([id])
       case CloneOk(ids) => Registering(ids)
       case _ => Closed)
    case Stock => if outcome.CreateOk? then Pooled(outcome.id) else Closed
    case Forget(id) => if outcome == Plain(true) then Marking(id) else Settling(id, SandboxState.Failed)
    case Settle(id, next) => Settling(id, if outcome == Plain(true) then next else SandboxState.Failed)
    case Refresh(id) => if outcome.RollbackOk? then Refreshing(id) else Closed
    case Answer => Closed
  }

  function Put(s: Api, o: OpId, call: Call): Api { s.(calls := s.calls[o := call]) }

  function Update(s: Api, o: OpId, records: Option<map<SandboxId, SandboxState>>, call: Call): Api {
    if records.None? then Put(s, o, Closed) else Put(s, o, call).(records := records.value)
  }

  function AdvanceCall(s: Api, o: OpId): Option<Api> {
    if o !in s.calls || o !in s.rt.ops then None else
    match s.calls[o]
    case Waiting(goal) =>
      if s.rt.ops[o].Finished? then Some(Put(s, o, Continue(goal, s.rt.ops[o].outcome))) else None
    case Registering(ids) =>
      if ids == [] then Some(Put(s, o, Closed))
      else Some(Put(s, o, Registering(ids[1..])).(records := s.records[ids[0] := Running]))
    case Pooled(id) => Some(Put(s, o, Registering([id])))
    case Marking(id) => Some(Update(s, o, Transition(s.records, id, Deleted), Forgetting(id)))
    case Forgetting(id) => Some(Put(s, o, Closed).(records := s.records - {id}))
    case Settling(id, next) => Some(Update(s, o, Transition(s.records, id, next), Closed))
    case Refreshing(id) =>
      Some(Update(s, o, if id in s.records then Some(s.records[id := Running]) else None, Closed))
    case Closed => None
  }

  function OpenCall(s: Api, o: OpId, request: Request, goal: Goal): Option<Api> {
    var admitted := Admit(s.records, request);
    var rt := Next(s.rt, Begin(o, request));
    if admitted.None? || rt.None? then None else Some(Api(rt.value, admitted.value, s.calls[o := Waiting(goal)]))
  }

  function ApiNext(s: Api, move: Move): Option<Api> {
    match move
    case Prewarm(o) => OpenCall(s, o, Create, Stock)
    case Open(o, request) => OpenCall(s, o, request, GoalOf(request))
    case Advance(o) => AdvanceCall(s, o)
    case Inside(step) =>
      if step.Begin? then None else
      var rt := Next(s.rt, step);
      if rt.None? then None else Some(s.(rt := rt.value))
  }

  ghost predicate IsApiRun(states: seq<Api>, moves: seq<Move>) {
    && |states| == |moves| + 1
    && forall i {:trigger moves[i]} | 0 <= i < |moves| :: ApiNext(states[i], moves[i]) == Some(states[i + 1])
  }

  // ------------------------------------------------------------------------------------ the invariant

  /** A call that launched `k` has not handed it over to the table yet. */
  predicate InHand(s: Api, k: SandboxId) {
    && k in s.rt.born && s.rt.born[k] in s.calls
    && var call := s.calls[s.rt.born[k]];
       call.Waiting? || (call.Registering? && k in call.ids) || call == Pooled(k)
  }

  /** How far the runtime's deletion of `id` has got. */
  predicate DeletesId(rt: State, pc: Pc, id: SandboxId) {
    match pc
    case Delete(cause, x, phase) => cause.Asked? && x == id && (phase.Remove? || id in rt.retired)
    case Finished(outcome) => outcome == Plain(false) || (outcome == Plain(true) && id in rt.retired)
    case _ => false
  }

  /** The runtime operation is a create or a clone. */
  predicate Makes(pc: Pc) {
    match pc
    case Launch(p, _, _) => !p.ForRollback?
    case Delete(cause, _, _) => cause.UndoClone?
    case WaitClone(_, _) => true
    case VerifyClone(_, _) => true
    case Finished(outcome) => outcome.CreateOk? || outcome.CloneOk?
    case _ => false
  }

  /** The runtime operation is a create. */
  predicate Single(pc: Pc) { (pc.Launch? && pc.purpose.ForCreate?) || (pc.Finished? && pc.outcome.CreateOk?) }

  predicate CallOk(s: Api, o: OpId) {
    && o in s.rt.ops && o in s.calls
    && (!s.rt.ops[o].Finished? ==> s.calls[o].Waiting?)
    && (RollbackTarget(s.rt.ops[o]).Some? ==> RollbackTarget(s.rt.ops[o]).value in s.rt.issued)
    && (s.calls[o].Waiting? && Makes(s.rt.ops[o]) ==>
          s.calls[o].goal.Register? || (s.calls[o].goal.Stock? && Single(s.rt.ops[o])))
    && match s.calls[o]
       case Waiting(Forget(id)) => DeletesId(s.rt, s.rt.ops[o], id)
       case Registering(ids) => forall k | k in ids :: k in s.rt.issued
       case Pooled(id) => id in s.rt.issued
       case Marking(id) => id in s.rt.retired
       case Forgetting(id) => id in s.rt.retired
       case _ => true
  }

  ghost predicate ApiInv(s: Api) {
    && Reachable(s.rt)
    && s.rt.ops.Keys == s.calls.Keys
    && s.records.Keys <= s.rt.issued
    && (forall o | o in s.calls :: CallOk(s, o))
    && (forall k | k in s.rt.sandboxes :: k in s.records || InHand(s, k))
  }

  // -------------------------------------------------------------------------------- runtime steps

  lemma IssuedGrows(s: State, a: Action)
    requires Next(s, a).Some?
    ensures s.issued <= Next(s, a).value.issued
  {}

  lemma RetiredGrows(s: State, a: Action)
    requires Next(s, a).Some?
    ensures s.retired <= Next(s, a).value.retired
  {}

  lemma LaunchTarget(s: State, o: OpId, c: Choice, p: Purpose, id: SandboxId, phase: LaunchPhase)
    requires LaunchStep(s, o, c, p, id, phase).Some?
    ensures RollbackTarget(LaunchStep(s, o, c, p, id, phase).value.pc) in {RollbackTarget(Launch(p, id, phase)), None}
  {}

  lemma DeleteTarget(s: State, o: OpId, c: Choice, cause: Cause, id: SandboxId, phase: DeletePhase)
    requires DeleteStep(s, o, c, cause, id, phase).Some?
    ensures RollbackTarget(DeleteStep(s, o, c, cause, id, phase).value.pc) in {RollbackTarget(Delete(cause, id, phase)), None}
  {}

  /** A rollback keeps the target it was begun with; no other operation has one. */
  lemma TargetKept(s: State, o: OpId, c: Choice)
    requires o in s.ops && StepOp(s, o, c, s.ops[o]).Some?
    ensures RollbackTarget(StepOp(s, o, c, s.ops[o]).value.pc) in {RollbackTarget(s.ops[o]), None}
  {
    match s.ops[o]
    case Launch(p, id, phase) => LaunchTarget(s, o, c, p, id, phase);
    case Delete(cause, id, phase) => DeleteTarget(s, o, c, cause, id, phase);
    case _ =>
  }

  lemma MakerKept(s: State, o: OpId, c: Choice)
    requires o in s.ops && StepOp(s, o, c, s.ops[o]).Some? && Makes(StepOp(s, o, c, s.ops[o]).value.pc)
    ensures Makes(s.ops[o])
    ensures Single(s.ops[o]) ==> Single(StepOp(s, o, c, s.ops[o]).value.pc)
  {}

  lemma DeleteGoesOn(s: State, o: OpId, c: Choice, id: SandboxId)
    requires o in s.ops && DeletesId(s, s.ops[o], id) && Next(s, Step(o, c)).Some?
    ensures DeletesId(Next(s, Step(o, c)).value, Next(s, Step(o, c)).value.ops[o], id)
  {}

  lemma InsideCall(s: Api, a: Action, o: OpId)
    requires CallOk(s, o) && !a.Begin? && Next(s.rt, a).Some?
    ensures CallOk(s.(rt := Next(s.rt, a).value), o)
  {
    var t := Next(s.rt, a).value;
    IssuedGrows(s.rt, a);
    RetiredGrows(s.rt, a);
    if a.Step? && a.op == o {
      TargetKept(s.rt, o, a.choice);
      if Makes(t.ops[o]) {
        MakerKept(s.rt, o, a.choice);
      }
      if s.calls[o].Waiting? && s.calls[o].goal.Forget? {
        DeleteGoesOn(s.rt, o, a.choice, s.calls[o].goal.id);
      }
    } else {
      assert t.ops[o] == s.rt.ops[o];
    }
  }

  /** An id the runtime maps after its step is in the table or in hand, as it was or because it is new. */
  lemma InsideKey(s: Api, a: Action, k: SandboxId)
    requires ApiInv(s) && !a.Begin? && Next(s.rt, a).Some? && k in Next(s.rt, a).value.sandboxes
    ensures k in s.records || InHand(s.(rt := Next(s.rt, a).value), k)
  {
    ReachableInv(s.rt);
    ActionRely(s.rt, a);
    var t := Next(s.rt, a).value;
    if k in s.rt.sandboxes {
      assert KeyOk(s.rt, k) && RelyId(s.rt, t, Actor(a), k);
    } else {
      EntryChange(s.rt, a, k);
      assert PcOk(s.rt, a.op, s.rt.ops[a.op]) && CallOk(s, a.op);
      assert k in s.rt.born && RelyId(s.rt, t, Actor(a), k);
    }
  }

  lemma InsideInv(s: Api, a: Action)
    requires ApiInv(s) && !a.Begin? && Next(s.rt, a).Some?
    ensures ApiInv(s.(rt := Next(s.rt, a).value))
  {
    var t := s.(rt := Next(s.rt, a).value);
    ReachableNext(s.rt, a);
    IssuedGrows(s.rt, a);
    forall o | o in t.calls ensures CallOk(t, o) { InsideCall(s, a, o); }
    forall k | k in t.rt.sandboxes ensures k in t.records || InHand(t, k) { InsideKey(s, a, k); }
    assert t.rt.ops.Keys == s.rt.ops.Keys;
  }

  // ------------------------------------------------------------------------------------ API steps

  predicate GoalFits(request: Request, goal: Goal) { goal == GoalOf(request) || (request.Create? && goal.Stock?) }

  lemma OpenedCall(s: Api, o: OpId, request: Request, goal: Goal)
    requires GoalFits(request, goal) && s.records.Keys <= s.rt.issued && OpenCall(s, o, request, goal).Some?
    ensures CallOk(OpenCall(s, o, request, goal).value, o)
  {}

  lemma OpenOthers(s: Api, o: OpId, request: Request, goal: Goal, p: OpId)
    requires CallOk(s, p) && OpenCall(s, o, request, goal).Some?
    ensures p != o && CallOk(OpenCall(s, o, request, goal).value, p)
  {
    var t := OpenCall(s, o, request, goal).value;
    IssuedGrows(s.rt, Begin(o, request));
    RetiredGrows(s.rt, Begin(o, request));
    assert t.rt.ops[p] == s.rt.ops[p];
  }

  lemma MappedFacts(rt: State, k: SandboxId)
    requires Reachable(rt) && k in rt.sandboxes
    ensures k !in rt.retired && k in rt.born && rt.born[k] in rt.ops
  {
    ReachableInv(rt);
    assert KeyOk(rt, k) && IdOk(rt, k);
  }

  lemma BeginKeepsKey(rt: State, o: OpId, request: Request, k: SandboxId)
    requires Reachable(rt) && Next(rt, Begin(o, request)).Some? && k in Next(rt, Begin(o, request)).value.sandboxes
    ensures var t := Next(rt, Begin(o, request)).value;
      k in rt.sandboxes && k in rt.born && k in t.born && t.born[k] == rt.born[k] && rt.born[k] in rt.ops && rt.born[k] != o
  {
    var a := Begin(o, request);
    OnlyStepsChange(rt, a, k);
    MappedFacts(rt, k);
    ReachableInv(rt);
    ActionRely(rt, a);
    assert RelyId(rt, Next(rt, a).value, Actor(a), k);
  }

  lemma OpenKey(s: Api, o: OpId, request: Request, goal: Goal, k: SandboxId)
    requires ApiInv(s) && OpenCall(s, o, request, goal).Some? && k in OpenCall(s, o, request, goal).value.rt.sandboxes
    ensures var t := OpenCall(s, o, request, goal).value; k in t.records || InHand(t, k)
  {
    BeginKeepsKey(s.rt, o, request, k);
    AdmitKeys(s.records, request);
  }

  lemma AdmitKeys(records: map<SandboxId, SandboxState>, request: Request)
    ensures Admit(records, request).Some? ==> Admit(records, request).value.Keys == records.Keys
  {}

  lemma OpenInv(s: Api, o: OpId, request: Request, goal: Goal)
    requires ApiInv(s) && GoalFits(request, goal) && OpenCall(s, o, request, goal).Some?
    ensures ApiInv(OpenCall(s, o, request, goal).value)
  {
    var t := OpenCall(s, o, request, goal).value;
    ReachableNext(s.rt, Begin(o, request));
    IssuedGrows(s.rt, Begin(o, request));
    AdmitKeys(s.records, request);
    OpenedCall(s, o, request, goal);
    forall p | p in s.calls ensures p != o && CallOk(t, p) { OpenOthers(s, o, request, goal, p); }
    forall k | k in t.rt.sandboxes ensures k in t.records || InHand(t, k) { OpenKey(s, o, request, goal, k); }
  }

  /** The ids a finished launch left mapped are those it returned. */
  lemma Handover(s: Api, o: OpId, k: SandboxId)
    requires ApiInv(s) && o in s.calls && s.calls[o].Waiting? && s.rt.ops[o].Finished?
    requires k in s.rt.sandboxes && k in s.rt.born && s.rt.born[k] == o
    ensures var call := Continue(s.calls[o].goal, s.rt.ops[o].outcome);
      (call.Registering? && k in call.ids) || call == Pooled(k)
  {
    NoOrphan(s.rt, k);
    assert CallOk(s, o);
  }

  /** What a finished call hands over was issued; what the runtime deleted is retired. */
  lemma ContinueOk(s: Api, o: OpId)
    requires ApiInv(s) && o in s.calls && s.calls[o].Waiting? && s.rt.ops[o].Finished?
    ensures CallOk(AdvanceCall(s, o).value, o)
  {
    assert CallOk(s, o);
    ReachableInv(s.rt);
    assert PcOk(s.rt, o, s.rt.ops[o]);
  }

  lemma AdvanceOwn(s: Api, o: OpId)
    requires ApiInv(s) && AdvanceCall(s, o).Some?
    ensures var t := AdvanceCall(s, o).value;
      t.rt == s.rt && CallOk(t, o) && t.records.Keys <= s.rt.issued && t.calls == s.calls[o := t.calls[o]]
  {
    assert CallOk(s, o);
    if s.calls[o].Waiting? { ContinueOk(s, o); }
  }

  lemma AdvanceKey(s: Api, o: OpId, k: SandboxId)
    requires CallOk(s, o) && AdvanceCall(s, o).Some? && k !in s.rt.retired && k in s.rt.born && (k in s.records || InHand(s, k))
    requires s.calls[o].Waiting? && s.rt.ops[o].Finished? && s.rt.born[k] == o ==>
      var call := Continue(s.calls[o].goal, s.rt.ops[o].outcome);
      (call.Registering? && k in call.ids) || call == Pooled(k)
    ensures var t := AdvanceCall(s, o).value; k in t.records || InHand(t, k)
  {}

  lemma AdvanceInv(s: Api, o: OpId)
    requires ApiInv(s) && AdvanceCall(s, o).Some?
    ensures ApiInv(AdvanceCall(s, o).value)
  {
    var t := AdvanceCall(s, o).value;
    AdvanceOwn(s, o);
    forall p | p in t.calls && p != o ensures CallOk(t, p) { assert CallOk(s, p); }
    assert CallOk(s, o);
    forall k | k in t.rt.sandboxes ensures k in t.records || InHand(t, k) {
      MappedFacts(s.rt, k);
      if s.calls[o].Waiting? && s.rt.born[k] == o { Handover(s, o, k); }
      AdvanceKey(s, o, k);
    }
  }

  lemma {:induction false} ApiRunInv(states: seq<Api>, moves: seq<Move>, i: nat)
    requires IsApiRun(states, moves) && states[0] == EMPTY && i < |states|
    ensures ApiInv(states[i])
  {
    if i == 0 {
      var none: seq<Action> := [];
      assert IsRun([INITIAL], none) && [INITIAL][|none|] == INITIAL;
    } else {
      ApiRunInv(states, moves, i - 1);
      match moves[i - 1] {
        case Prewarm(o) => OpenInv(states[i - 1], o, Create, Stock);
        case Open(o, request) => OpenInv(states[i - 1], o, request, GoalOf(request));
        case Advance(o) => AdvanceInv(states[i - 1], o);
        case Inside(step) => InsideInv(states[i - 1], step);
      }
    }
  }

  // ------------------------------------------------------------------------------------ theorems

  /** No orphan between the layers: whatever the runtime maps has a record, or is in the ready pool, or
      the call that launched it is still under way; and records are only of ids that the runtime has handed out. */
  lemma NoOrphanBetweenLayers(states: seq<Api>, moves: seq<Move>, i: nat, k: SandboxId)
    requires IsApiRun(states, moves) && states[0] == EMPTY && i < |states|
    ensures k in states[i].rt.sandboxes ==> k in states[i].records || InHand(states[i], k)
    ensures k in states[i].records ==> k in states[i].rt.issued
  {
    ApiRunInv(states, moves, i);
  }

  lemma RemovalRetired(s: Api, move: Move, k: SandboxId)
    requires forall o | o in s.calls :: CallOk(s, o)
    requires ApiNext(s, move).Some? && k in s.records && k !in ApiNext(s, move).value.records
    ensures k in s.rt.retired
  {
    match move {
      case Prewarm(_) =>
      case Open(o, request) => AdmitKeys(s.records, request);
      case Advance(o) => assert CallOk(s, o);
      case Inside(step) =>
    }
  }

  /** A record leaves the table only once the runtime has removed the sandbox for good. */
  lemma RecordsOutliveSandboxes(states: seq<Api>, moves: seq<Move>, i: nat, k: SandboxId)
    requires IsApiRun(states, moves) && states[0] == EMPTY && i < |moves|
    requires k in states[i].records && k !in states[i + 1].records
    ensures k in states[i].rt.retired && k !in states[i].rt.sandboxes
  {
    ApiRunInv(states, moves, i);
    var s := states[i];
    RemovalRetired(s, moves[i], k);
    if k in s.rt.sandboxes { MappedFacts(s.rt, k); }
  }

  /** Behind the API the runtime never deadlocks: the table only lets in rollbacks of ids it was given. */
  lemma ApiDeadlockFree(states: seq<Api>, moves: seq<Move>, i: nat, o: OpId)
    requires IsApiRun(states, moves) && states[0] == EMPTY && i < |states|
    requires o in states[i].rt.ops && !states[i].rt.ops[o].Finished?
    ensures Unblocked(states[i].rt, o, 3)
  {
    ApiRunInv(states, moves, i);
    forall p | p in states[i].rt.ops ensures CallOk(states[i], p) { assert p in states[i].calls; }
    DeadlockFree(states[i].rt, o);
  }

  /** Every sandbox with a record has a guest that carries its id and its record's token, whenever the
      runtime's record is unlocked. */
  lemma RecordedAgree(states: seq<Api>, moves: seq<Move>, i: nat, k: SandboxId)
    requires IsApiRun(states, moves) && states[0] == EMPTY && i < |states|
    requires var rt := states[i].rt;
      && k in states[i].records && k in rt.sandboxes
      && rt.sandboxes[k] in rt.records && rt.records[rt.sandboxes[k]].lock.None?
    ensures Agrees(states[i].rt, k)
  {
    ApiRunInv(states, moves, i);
    IssuedAgree(states[i].rt, k);
  }

  lemma {:induction false} SomeoneSteps(rt: State, o: OpId, links: nat)
    requires Unblocked(rt, o, links)
    ensures exists p :: CanStep(rt, p)
    decreases links
  {
    if !CanStep(rt, o) { SomeoneSteps(rt, WaitsFor(rt, o).value, links - 1); }
  }

  /** As long as a call is open, something can move. */
  lemma ApiProgress(states: seq<Api>, moves: seq<Move>, i: nat, o: OpId)
    requires IsApiRun(states, moves) && states[0] == EMPTY && i < |states|
    requires o in states[i].calls && !states[i].calls[o].Closed? && !states[i].calls[o].Pooled?
    ensures exists move: Move :: (move.Advance? || move.Inside?) && ApiNext(states[i], move).Some?
  {
    ApiRunInv(states, moves, i);
    var s := states[i];
    assert CallOk(s, o);
    if s.rt.ops[o].Finished? {
      assert ApiNext(s, Advance(o)).Some?;
    } else {
      ApiDeadlockFree(states, moves, i, o);
      SomeoneSteps(s.rt, o, 3);
      var p :| CanStep(s.rt, p);
      assert ApiNext(s, Inside(Step(p, Fine))).Some?;
    }
  }

  // --------------------------------------------------------------------- records that never go away

  /** The call can still take `id`'s record out of the table. */
  predicate Saves(s: Api, o: OpId, id: SandboxId) {
    && o in s.calls && o in s.rt.ops
    && (s.calls[o] == Marking(id) || s.calls[o] == Forgetting(id)
        || (s.calls[o] == Waiting(Forget(id))
            && match s.rt.ops[o]
               case Delete(_, _, phase) => !phase.Remove?
               case Finished(outcome) => outcome == Plain(true)
               case _ => false))
  }

  /** The sandbox is gone from the runtime for good, its record is in the table, and no call will remove it. */
  ghost predicate Hopeless(s: Api, id: SandboxId) {
    id in s.records && id in s.rt.retired && forall o :: !Saves(s, o, id)
  }

  /** A deletion that comes too late finds nothing and fails. */
  lemma NotFoundFails(rt: State, o: OpId, c: Choice, id: SandboxId)
    requires o in rt.ops && rt.ops[o] == Delete(Asked, id, Remove) && id !in rt.sandboxes
    requires StepOp(rt, o, c, rt.ops[o]).Some?
    ensures StepOp(rt, o, c, rt.ops[o]).value.pc == Finished(Plain(false))
  {}

  lemma HopelessCall(s: Api, move: Move, id: SandboxId, o: OpId)
    requires !Saves(s, o, id) && (o in s.calls ==> CallOk(s, o)) && id in s.rt.retired && id !in s.rt.sandboxes
    requires ApiNext(s, move).Some?
    ensures !Saves(ApiNext(s, move).value, o, id)
  {
    if move.Inside? && move.step.Step? && move.step.op == o && o in s.calls && s.calls[o] == Waiting(Forget(id)) {
      if s.rt.ops[o] == Delete(Asked, id, Remove) { NotFoundFails(s.rt, o, move.step.choice, id); }
    }
  }

  lemma HopelessStep(s: Api, move: Move, id: SandboxId)
    requires ApiInv(s) && Hopeless(s, id) && ApiNext(s, move).Some?
    ensures Hopeless(ApiNext(s, move).value, id)
  {
    var t := ApiNext(s, move).value;
    if id in s.rt.sandboxes { MappedFacts(s.rt, id); }
    forall o ensures !Saves(t, o, id) { HopelessCall(s, move, id, o); }
    RetiredKept(s, move);
    if id !in t.records { StillRecorded(s, move, id); }
  }

  lemma RetiredKept(s: Api, move: Move)
    requires ApiNext(s, move).Some?
    ensures s.rt.retired <= ApiNext(s, move).value.rt.retired
  {
    match move {
      case Prewarm(o) => RetiredGrows(s.rt, Begin(o, Create));
      case Open(o, request) => RetiredGrows(s.rt, Begin(o, request));
      case Advance(_) =>
      case Inside(step) => RetiredGrows(s.rt, step);
    }
  }

  lemma StillRecorded(s: Api, move: Move, id: SandboxId)
    requires id in s.records && ApiNext(s, move).Some? && id !in ApiNext(s, move).value.records
    ensures exists o :: Saves(s, o, id)
  {
    match move {
      case Prewarm(_) =>
      case Open(o, request) => AdmitKeys(s.records, request);
      case Advance(o) => assert Saves(s, o, id);
      case Inside(_) =>
    }
  }

  /** Such a record stays in the table whatever is tried. */
  lemma {:induction false} HopelessForever(states: seq<Api>, moves: seq<Move>, h: nat, i: nat, id: SandboxId)
    requires IsApiRun(states, moves) && states[0] == EMPTY && h <= i < |states| && Hopeless(states[h], id)
    ensures Hopeless(states[i], id)
    decreases i
  {
    if h < i {
      HopelessForever(states, moves, h, i - 1, id);
      ApiRunInv(states, moves, i - 1);
      HopelessStep(states[i - 1], moves[i - 1], id);
    }
  }

  /** The last step of the one deletion of `id` decides: its record is there forever exactly when the
      clean-up of the terminated VM's resources fails. */
  lemma CleanupDecides(s: Api, o: OpId, c: Choice, id: SandboxId, v: VmId)
    requires ApiInv(s) && id in s.records && o in s.calls && s.calls[o] == Waiting(Forget(id))
    requires s.rt.ops[o] == Delete(Asked, id, Kill(v)) && ApiNext(s, Inside(Step(o, c))).Some?
    requires forall p | p != o :: !Saves(s, p, id)
    ensures Hopeless(ApiNext(s, Inside(Step(o, c))).value, id) <==> c != Fine
  {
    var t := ApiNext(s, Inside(Step(o, c))).value;
    assert CallOk(s, o);
    RetiredGrows(s.rt, Step(o, c));
    forall p | p != o ensures !Saves(t, p, id) { assert Saves(t, p, id) <==> Saves(s, p, id); }
    assert t.rt.ops[o] == Finished(Plain(c == Fine));
    if c == Fine { assert Saves(t, o, id); }
  }

  /** Even after a successful deletion the record goes only if nobody else moved its state meanwhile. */
  lemma MarkingDecides(s: Api, o: OpId, id: SandboxId)
    requires ApiInv(s) && id in s.records && o in s.calls && s.calls[o] == Marking(id)
    requires forall p | p != o :: !Saves(s, p, id)
    ensures Hopeless(AdvanceCall(s, o).value, id) <==> s.records[id] != Deleting
  {
    var t := AdvanceCall(s, o).value;
    assert CallOk(s, o);
    forall p | p != o ensures !Saves(t, p, id) { assert Saves(t, p, id) <==> Saves(s, p, id); }
    if s.records[id] == Deleting { assert Saves(t, o, id); }
  }

  // --------------------------------------------------------------------------------- such a record exists

  ghost predicate ApiReachable(s: Api) {
    exists states, moves :: IsApiRun(states, moves) && states[0] == EMPTY && states[|moves|] == s
  }

  lemma ApiGo(s: Api, move: Move) returns (t: Api)
    requires ApiReachable(s) && ApiNext(s, move).Some?
    ensures ApiReachable(t) && ApiNext(s, move) == Some(t)
  {
    t := ApiNext(s, move).value;
    var states, moves :| IsApiRun(states, moves) && states[0] == EMPTY && states[|moves|] == s;
    assert IsApiRun(states + [t], moves + [move]);
    assert (states + [t])[|moves + [move]|] == t;
  }

  lemma Booted() returns (s: Api)
    ensures ApiReachable(s) && s.records == map[] && s.calls == map[0 := Waiting(Register)]
    ensures s.rt.ops == map[0 := Launch(ForCreate, 0, Key(1, 2))] && 1 in s.rt.vms && s.rt.vms[1].guest == Blank
  {
    var none: seq<Move> := [];
    assert IsApiRun([EMPTY], none) && [EMPTY][|none|] == EMPTY;
    s := ApiGo(EMPTY, Open(0, Create));
    s := ApiGo(s, Inside(Step(0, Fine)));
    s := ApiGo(s, Inside(Step(0, Fine)));
  }

  lemma Created() returns (s: Api)
    ensures ApiReachable(s) && s.records == map[] && s.calls == map[0 := Waiting(Register)]
    ensures s.rt.ops == map[0 := Finished(CreateOk(0))] && 0 in s.rt.sandboxes && s.rt.sandboxes[0] == 1
    ensures Known(s.rt, 1) && s.rt.records[1].lock.None?
  {
    s := Booted();
    s := ApiGo(s, Inside(Step(0, Fine)));
    s := ApiGo(s, Inside(Step(0, Fine)));
    s := ApiGo(s, Inside(Step(0, Fine)));
  }

  /** Sandbox 0 runs in VM 1 and has a record. */
  lemma Recorded() returns (s: Api)
    ensures ApiReachable(s) && s.records == map[0 := Running] && s.calls == map[0 := Registering([])]
    ensures s.rt.ops == map[0 := Finished(CreateOk(0))] && 0 in s.rt.sandboxes && s.rt.sandboxes[0] == 1
    ensures Known(s.rt, 1) && s.rt.records[1].lock.None?
  {
    s := Created();
    s := ApiGo(s, Advance(0));
    s := ApiGo(s, Advance(0));
    assert [0][1..] == [];
    assert s.calls[0] == Registering([]);
  }

  lemma BeingDeleted() returns (s: Api)
    ensures ApiReachable(s) && 0 in s.records && 0 in s.rt.retired && Known(s.rt, 1)
    ensures s.calls == map[0 := Registering([]), 1 := Waiting(Forget(0))]
    ensures s.rt.ops == map[0 := Finished(CreateOk(0)), 1 := Delete(Asked, 0, Kill(1))]
  {
    s := Recorded();
    s := ApiGo(s, Open(1, DeleteSandbox(0)));
    s := ApiGo(s, Inside(Step(1, Fine)));
    s := ApiGo(s, Inside(Step(1, Fine)));
  }

  /** One deletion whose clean-up fails is enough. */
  lemma HopelessWitness() returns (s: Api)
    ensures ApiReachable(s) && Hopeless(s, 0)
  {
    s := BeingDeleted();
    s := ApiGo(s, Inside(Step(1, Broken)));
    forall o ensures !Saves(s, o, 0) {
      assert o in s.calls ==> o == 0 || o == 1;
    }
  }
}
