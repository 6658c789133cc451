/**
The sandbox and snapshot lifecycle of the Firecracker runtime as an interleaved step system.

Every operation in flight is a program counter (`Pc`). One action lets one operation run to its next
await point: a lock it has to wait for, a call that leaves the process, or a map access between two
of those. The choice carried by an action decides how an outside call ends: `Fine`, `Broken` (it
fails and had no effect) or `Unheard` (it took effect and its answer was lost).

A `FirecrackerSandbox` owns its child process by value, so the record and its VM share one number.
`owner`, `home`, `lost`, `born`, `internal`, `issued` and `retired` are history: no guard reads them.
*/
module Lifecycle {
  import opened Core
  import opened GuestAgent

  type OpId = nat
  type SandboxId = nat
  type SnapId = nat
  type VmId = nat
  type Token = nat
  type Identity = Guest<SandboxId, Token>

  // ---------------------------------------------------------------------------------- state

  datatype Owner = InFlight(launcher: OpId) | Mapped(id: SandboxId) | Removed(remover: OpId) | Gone

  /** `kills` counts how often the runtime terminated the VM. */
  datatype Vm = Vm(guest: Identity, kills: nat, owner: Owner)

  /** `home` is the id the record was last mapped under; `lost` says that a rekey of its guest took
      effect while the runtime saw an error. */
  datatype Rec = Rec(state: SandboxState, token: Token, lock: Option<OpId>, home: SandboxId, lost: bool)

  datatype Art = Art(source: SandboxId, token: Token, memory: Identity, intact: bool, lock: Option<OpId>, lost: bool)

  datatype Shot = Shot(source: SandboxId, token: Token, memory: Identity, lost: bool)

  datatype Purpose =
    | ForCreate
    | ForClone(snap: SnapId, want: nat, done: seq<SandboxId>)
    | ForRollback(target: SandboxId, src: VmId, snap: SnapId)

  datatype LaunchPhase = Prepare | Boot(vm: VmId) | Key(vm: VmId, tok: Token) | Insert(vm: VmId, tok: Token) | Return

  datatype Cause =
    | Asked
    | UndoClone(snap: SnapId, batch: seq<SandboxId>, todo: seq<SandboxId>)
    | UndoRollback(target: SandboxId, src: VmId, rekeyed: Option<VmId>)

  datatype DeletePhase = Remove | Await(vm: VmId) | Kill(vm: VmId)

  datatype RollbackPhase =
    | LockSource(snap: SnapId)
    | FindSnapshot(snap: SnapId)
    | LockSnapshot(snap: SnapId)
    | Verify(snap: SnapId)
    | FetchReplacement(repl: SandboxId)
    | LockReplacement(repl: SandboxId, vm: VmId)
    | RekeyReplacement(repl: SandboxId, vm: VmId, tok: Token)
    | Swap(repl: SandboxId, vm: VmId)
    | Retire(repl: SandboxId)
    | GiveUp(repl: SandboxId)

  datatype ControlKind = PauseIt | ResumeIt | LookUp

  datatype CapturePhase =
    | LockRecord
    | PauseFirst(was: SandboxState)
    | TakeShot(was: SandboxState, paused: bool)
    | ResumeAfter(was: SandboxState, paused: bool, shot: Option<Shot>)
    | Publish(ready: Shot)

  datatype Outcome =
    | Plain(ok: bool)
    | CreateOk(id: SandboxId)
    | CloneOk(ids: seq<SandboxId>)
    | CloneErr(batch: seq<SandboxId>)
    | RollbackOk(target: SandboxId, repl: SandboxId)
    | RollbackErr(target: SandboxId, undone: Option<SandboxId>)

  datatype Pc =
    | Launch(purpose: Purpose, id: SandboxId, launch: LaunchPhase)
    | Delete(cause: Cause, id: SandboxId, delete: DeletePhase)
    | WaitClone(snap: SnapId, want: nat)
    | VerifyClone(snap: SnapId, want: nat)
    | Rollback(target: SandboxId, src: VmId, rollback: RollbackPhase)
    | Control(kind: ControlKind, vm: VmId, held: bool)
    | Capture(id: SandboxId, vm: VmId, capture: CapturePhase)
    | InspectSnapshot(snap: SnapId, held: bool)
    | ListSnapshots(todo: seq<SnapId>)
    | DropSnapshot(snap: SnapId, dropped: bool)
    | Finished(outcome: Outcome)

  datatype State = State(
    ops: map<OpId, Pc>,
    sandboxes: map<SandboxId, VmId>,
    records: map<VmId, Rec>,
    vms: map<VmId, Vm>,
    listed: set<SnapId>,
    arts: map<SnapId, Art>,
    next: nat,
    born: map<SandboxId, OpId>,
    internal: set<SandboxId>,
    issued: set<SandboxId>,
    retired: set<SandboxId>)

  const INITIAL := State(map[], map[], map[], map[], {}, map[], 0, map[], {}, {}, {})

  datatype Choice = Fine | Broken | Unheard

  datatype Request =
    | Create
    | Clone(snap: SnapId, count: nat)
    | RollBack(target: SandboxId, snap: SnapId)
    | DeleteSandbox(id: SandboxId)
    | ControlSandbox(kind: ControlKind, id: SandboxId)
    | CreateSnapshot(id: SandboxId)
    | ReadSnapshot(snap: SnapId)
    | ListThem(id: SandboxId, order: seq<SnapId>)
    | DeleteSnapshot(snap: SnapId)

  datatype Action = Begin(op: OpId, request: Request) | Step(op: OpId, choice: Choice) | Damage(snap: SnapId)

  // ---------------------------------------------------------------------------------- effects

  datatype Put<+T> = Keep | At(key: nat, value: T)

  /** How a step changes the two id maps and the history kept about ids. */
  datatype Ids =
    | Same
    | Bear(secret: bool)                       // a fresh id for a launch
    | Issue(ids: seq<SandboxId>)               // ids returned to a caller
    | MapNew(id: SandboxId, vm: VmId)
    | Unmap(id: SandboxId)
    | Exchange(target: SandboxId, repl: SandboxId, vm: VmId, src: VmId)
    | List(snap: SnapId)
    | Unlist(snap: SnapId)

  /** What one step of one operation does to the state. Every step draws one fresh number. */
  datatype Effect = Effect(pc: Pc, rec: Put<Rec>, vm: Put<Vm>, art: Put<Art>, ids: Ids)

  function Goto(pc: Pc): Effect { Effect(pc, Keep, Keep, Keep, Same) }

  function End(outcome: Outcome): Effect { Goto(Finished(outcome)) }

  function PutInto<T>(m: map<nat, T>, put: Put<T>): map<nat, T> {
    if put.Keep? then m else m[put.key := put.value]
  }

  function Sandboxes(s: State, ids: Ids): map<SandboxId, VmId> {
    match ids
    case MapNew(id, v) => s.sandboxes[id := v]
    case Unmap(id) => s.sandboxes - {id}
    case Exchange(target, repl, v, _) => (s.sandboxes - {target, repl})[target := v]
    case _ => s.sandboxes
  }

  function Vms(s: State, o: OpId, e: Effect): map<VmId, Vm> {
    var vms := PutInto(s.vms, e.vm);
    if e.ids.Exchange? && e.ids.src in vms then vms[e.ids.src := vms[e.ids.src].(owner := Removed(o))] else vms
  }

  function Apply(s: State, o: OpId, e: Effect): State {
    State(
      s.ops[o := e.pc],
      Sandboxes(s, e.ids),
      PutInto(s.records, e.rec),
      Vms(s, o, e),
      match e.ids { case List(a) => s.listed + {a} case Unlist(a) => s.listed - {a} case _ => s.listed },
      PutInto(s.arts, e.art),
      s.next + 1,
      if e.ids.Bear? then s.born[s.next := o] else s.born,
      if e.ids.Bear? && e.ids.secret then s.internal + {s.next} else s.internal,
      if e.ids.Issue? then s.issued + set x | x in e.ids.ids else s.issued,
      match e.ids {
        case Unmap(id) => s.retired + {id}
        case Exchange(_, repl, _, _) => s.retired + {repl}
        case _ => s.retired
      })
  }

  predicate Live(state: SandboxState) { state == Running || state == Paused }

  predicate Dead(state: SandboxState) { state == Deleting || state == Deleted || state == Failed }

  predicate Known(s: State, v: VmId) { v in s.records && v in s.vms }

  function Killed(vm: Vm): Vm { vm.(kills := vm.kills + 1, owner := Gone) }

  function Locked(r: Rec, o: OpId): Rec { r.(lock := Some(o)) }

  function Unlocked(r: Rec): Rec { r.(lock := None) }

  function Leased(a: Art, o: OpId): Art { a.(lock := Some(o)) }

  function Returned(a: Art): Art { a.(lock := None) }

  // ---------------------------------------------------------------------------------- launch

  predicate PurposeKnown(s: State, p: Purpose) {
    match p
    case ForCreate => true
    case ForClone(snap, _, _) => snap in s.arts
    case ForRollback(_, src, snap) => snap in s.arts && src in s.records
  }

  /** What the fresh VM's guest holds before the runtime talks to it: nothing on a cold boot, the
      captured identity after a restore. */
  function BootGuest(s: State, p: Purpose): Identity
    requires PurposeKnown(s, p)
  {
    if p.ForCreate? then Blank else s.arts[p.snap].memory
  }

  function KeyGuest(s: State, p: Purpose, guest: Identity, id: SandboxId, tok: Token): Option<Identity>
    requires PurposeKnown(s, p)
  {
    if p.ForCreate? then AcceptInit(guest, id, tok) else AcceptRekey(guest, s.arts[p.snap].token, id, tok)
  }

  function StartLaunch(s: State, p: Purpose): Effect {
    Goto(Launch(p, s.next, Prepare)).(ids := Bear(p.ForRollback?))
  }

  /** A launch ended with an error: the caller's error path. */
  function LaunchFailed(s: State, p: Purpose): Effect
    requires PurposeKnown(s, p)
  {
    match p
    case ForCreate => End(Plain(false))
    case ForClone(snap, _, done) =>
      if done == [] then End(CloneErr([])).(art := At(snap, Returned(s.arts[snap])))
      else Goto(Delete(UndoClone(snap, done, done[1..]), done[0], Remove))
    case ForRollback(target, src, snap) =>
      End(RollbackErr(target, None)).(rec := At(src, Unlocked(s.records[src])), art := At(snap, Returned(s.arts[snap])))
  }

  /** A launch has inserted `id`: the caller goes on. */
  function Launched(s: State, p: Purpose, id: SandboxId): Effect
    requires PurposeKnown(s, p)
  {
    match p
    case ForCreate => End(CreateOk(id)).(ids := Issue([id]))
    case ForClone(snap, want, done) =>
      var batch := done + [id];
      if |batch| < want then StartLaunch(s, ForClone(snap, want, batch))
      else End(CloneOk(batch)).(art := At(snap, Returned(s.arts[snap])), ids := Issue(batch))
    case ForRollback(target, src, snap) =>
      Goto(Rollback(target, src, FetchReplacement(id))).(art := At(snap, Returned(s.arts[snap])))
  }

  function LaunchStep(s: State, o: OpId, c: Choice, p: Purpose, id: SandboxId, phase: LaunchPhase): Option<Effect> {
    if !PurposeKnown(s, p) || ((phase.Boot? || phase.Key? || phase.Insert?) && phase.vm !in s.vms) then None else
    match phase
    case Prepare =>
      if c != Fine then Some(LaunchFailed(s, p))
      else Some(Goto(Launch(p, id, Boot(s.next))).(vm := At(s.next, Vm(BootGuest(s, p), 0, InFlight(o)))))
    case Boot(v) =>
      if c != Fine then Some(LaunchFailed(s, p).(vm := At(v, Killed(s.vms[v]))))
      else Some(Goto(Launch(p, id, Key(v, s.next))))
    case Key(v, tok) =>
      var keyed := KeyGuest(s, p, s.vms[v].guest, id, tok);
      if keyed.None? || c == Broken then Some(LaunchFailed(s, p).(vm := At(v, Killed(s.vms[v])))) else
      var vm := s.vms[v].(guest := keyed.value);
      if c == Fine then Some(Goto(Launch(p, id, Insert(v, tok))).(vm := At(v, vm)))
      else if p.ForCreate? then Some(Goto(Launch(p, id, phase)).(vm := At(v, vm)))  // `init` is sent again
      else Some(LaunchFailed(s, p).(vm := At(v, Killed(vm))))
    case Insert(v, tok) =>
      Some(Goto(Launch(p, id, Return)).(
        rec := At(v, Rec(Running, tok, None, id, false)),
        vm := At(v, s.vms[v].(owner := Mapped(id))),
        ids := MapNew(id, v)))
    case Return => Some(Launched(s, p, id))
  }

  // ---------------------------------------------------------------------------------- delete

  predicate CauseKnown(s: State, cause: Cause) {
    match cause
    case Asked => true
    case UndoClone(snap, _, _) => snap in s.arts
    case UndoRollback(_, src, _) => src in s.records
  }

  function AfterDelete(s: State, cause: Cause, id: SandboxId, ok: bool): Effect
    requires CauseKnown(s, cause)
  {
    match cause
    case Asked => End(Plain(ok))
    case UndoClone(snap, batch, todo) =>
      if todo == [] then End(CloneErr(batch)).(art := At(snap, Returned(s.arts[snap])))
      else Goto(Delete(UndoClone(snap, batch, todo[1..]), todo[0], Remove))
    case UndoRollback(target, src, _) => Goto(Rollback(target, src, GiveUp(id)))
  }

  function DeleteStep(s: State, o: OpId, c: Choice, cause: Cause, id: SandboxId, phase: DeletePhase): Option<Effect> {
    if !CauseKnown(s, cause) || (!phase.Remove? && !Known(s, phase.vm)) then None else
    match phase
    case Remove =>
      if id !in s.sandboxes then Some(AfterDelete(s, cause, id, false)) else
      var v := s.sandboxes[id];
      if v !in s.vms then None
      else Some(Goto(Delete(cause, id, Await(v))).(vm := At(v, s.vms[v].(owner := Removed(o))), ids := Unmap(id)))
    case Await(v) =>
      if s.records[v].lock.Some? then None
      else Some(Goto(Delete(cause, id, Kill(v))).(rec := At(v, Locked(s.records[v], o).(state := Deleting))))
    case Kill(v) =>
      var state := if c == Fine then Deleted else Failed;
      Some(AfterDelete(s, cause, id, c == Fine).(
        rec := At(v, Unlocked(s.records[v]).(state := state)), vm := At(v, Killed(s.vms[v]))))
  }

  // ---------------------------------------------------------------------------------- clone and rollback

  function CloneStep(s: State, o: OpId, c: Choice, snap: SnapId, want: nat, held: bool): Option<Effect> {
    if snap !in s.arts then None else
    var art := s.arts[snap];
    if !held then
      if art.lock.Some? then None else Some(Goto(VerifyClone(snap, want)).(art := At(snap, Leased(art, o))))
    else if c != Fine || !art.intact then Some(End(CloneErr([])).(art := At(snap, Returned(art))))
    else Some(StartLaunch(s, ForClone(snap, want, [])))
  }

  /** Both `Arc::ptr_eq` tests of the write-locked swap. */
  predicate SwapAllowed(s: State, target: SandboxId, src: VmId, repl: SandboxId, v: VmId) {
    && target in s.sandboxes && s.sandboxes[target] == src
    && repl in s.sandboxes && s.sandboxes[repl] == v
  }

  /** Rollback up to the launch of the replacement. */
  function RollbackPrepare(s: State, o: OpId, c: Choice, target: SandboxId, src: VmId, phase: RollbackPhase): Option<Effect>
    requires phase.LockSource? || phase.FindSnapshot? || phase.LockSnapshot? || phase.Verify?
  {
    if !Known(s, src) || ((phase.LockSnapshot? || phase.Verify?) && phase.snap !in s.arts) then None else
    var r := s.records[src];
    match phase
    case LockSource(snap) =>
      if r.lock.Some? then None
      else if !Live(r.state) then Some(End(RollbackErr(target, None)))
      else Some(Goto(Rollback(target, src, FindSnapshot(snap))).(rec := At(src, Locked(r, o))))
    case FindSnapshot(snap) =>
      if snap !in s.listed then Some(End(RollbackErr(target, None)).(rec := At(src, Unlocked(r))))
      else Some(Goto(Rollback(target, src, LockSnapshot(snap))))
    case LockSnapshot(snap) =>
      if s.arts[snap].lock.Some? then None
      else Some(Goto(Rollback(target, src, Verify(snap))).(art := At(snap, Leased(s.arts[snap], o))))
    case Verify(snap) =>
      var art := s.arts[snap];
      if art.source != target || !art.intact || c != Fine then
        Some(End(RollbackErr(target, None)).(rec := At(src, Unlocked(r)), art := At(snap, Returned(art))))
      else Some(StartLaunch(s, ForRollback(target, src, snap)))
  }

  /** Rollback once the replacement is mapped under its own id. */
  function RollbackFinish(s: State, o: OpId, c: Choice, target: SandboxId, src: VmId, phase: RollbackPhase): Option<Effect>
    requires !(phase.LockSource? || phase.FindSnapshot? || phase.LockSnapshot? || phase.Verify?)
  {
    if !Known(s, src) || ((phase.LockReplacement? || phase.RekeyReplacement? || phase.Swap?) && !Known(s, phase.vm))
    then None else
    match phase
    case FetchReplacement(repl) =>
      if repl in s.sandboxes then Some(Goto(Rollback(target, src, LockReplacement(repl, s.sandboxes[repl]))))
      else Some(Goto(Rollback(target, src, GiveUp(repl))))
    case LockReplacement(repl, v) =>
      if s.records[v].lock.Some? then None else
      Some(Goto(Rollback(target, src, RekeyReplacement(repl, v, s.next))).(rec := At(v, Locked(s.records[v], o))))
    case RekeyReplacement(repl, v, tok) =>
      var r := s.records[v];
      var keyed := AcceptRekey(s.vms[v].guest, r.token, target, tok);
      if keyed.None? || s.vms[v].kills > 0 || c == Broken then
        Some(Goto(Delete(UndoRollback(target, src, None), repl, Remove)).(rec := At(v, Unlocked(r)))) else
      var vm := s.vms[v].(guest := keyed.value);
      if c == Fine then
        Some(Goto(Rollback(target, src, Swap(repl, v))).(rec := At(v, r.(token := tok)), vm := At(v, vm)))
      else
        Some(Goto(Delete(UndoRollback(target, src, Some(v)), repl, Remove)).(
          rec := At(v, Unlocked(r).(lost := true)), vm := At(v, vm)))
    case Swap(repl, v) =>
      if SwapAllowed(s, target, src, repl, v) then
        Some(Goto(Rollback(target, src, Retire(repl))).(
          rec := At(v, Unlocked(s.records[v]).(home := target)),
          vm := At(v, s.vms[v].(owner := Mapped(target))),
          ids := Exchange(target, repl, v, src)))
      else Some(Goto(Delete(UndoRollback(target, src, Some(v)), repl, Remove)).(rec := At(v, Unlocked(s.records[v]))))
    case Retire(repl) =>
      var state := if c == Fine then Deleted else Failed;
      Some(End(RollbackOk(target, repl)).(
        rec := At(src, Unlocked(s.records[src]).(state := state)), vm := At(src, Killed(s.vms[src]))))
    case GiveUp(repl) =>
      Some(End(RollbackErr(target, Some(repl))).(rec := At(src, Unlocked(s.records[src]))))
  }

  // ---------------------------------------------------------------------------------- pause, resume, lookups

  function ControlStep(s: State, o: OpId, c: Choice, kind: ControlKind, v: VmId, held: bool): Option<Effect> {
    if !Known(s, v) then None else
    var r := s.records[v];
    if !held then
      if r.lock.Some? then None
      else if kind.LookUp? then Some(End(Plain(r.state == Running)))
      else if r.state != (if kind.PauseIt? then Running else Paused) then Some(End(Plain(false)))
      else Some(Goto(Control(kind, v, true)).(rec := At(v, Locked(r, o))))
    else if c == Fine then
      Some(End(Plain(true)).(rec := At(v, Unlocked(r).(state := if kind.PauseIt? then Paused else Running))))
    else Some(End(Plain(false)).(rec := At(v, Unlocked(r))))
  }

  // ---------------------------------------------------------------------------------- create_snapshot

  function CaptureStep(s: State, o: OpId, c: Choice, id: SandboxId, v: VmId, phase: CapturePhase): Option<Effect> {
    if !Known(s, v) then None else
    var r := s.records[v];
    match phase
    case LockRecord =>
      if r.lock.Some? then None
      else if !Live(r.state) then Some(End(Plain(false)))
      else Some(Goto(Capture(id, v, PauseFirst(r.state))).(rec := At(v, Locked(r, o))))
    case PauseFirst(was) =>
      if was == Paused then Some(Goto(Capture(id, v, TakeShot(was, false))))
      else if c != Fine then Some(End(Plain(false)).(rec := At(v, Unlocked(r))))
      else Some(Goto(Capture(id, v, TakeShot(was, true))).(rec := At(v, r.(state := Paused))))
    case TakeShot(was, paused) =>
      var shot := Shot(id, r.token, s.vms[v].guest, r.lost);
      Some(Goto(Capture(id, v, ResumeAfter(was, paused, if c == Fine then Some(shot) else None))))
    case ResumeAfter(was, paused, shot) =>
      if paused && c != Fine then Some(End(Plain(false)).(rec := At(v, Unlocked(r).(state := Failed))))
      else
        var next := if shot.Some? then Goto(Capture(id, v, Publish(shot.value))) else End(Plain(false));
        Some(next.(rec := At(v, Unlocked(r).(state := was))))
    case Publish(shot) =>
      if c != Fine then Some(End(Plain(false))) else
      Some(End(Plain(true)).(
        art := At(s.next, Art(shot.source, shot.token, shot.memory, true, None, shot.lost)), ids := List(s.next)))
  }

  // ---------------------------------------------------------------------------------- snapshot-only operations

  function InspectStep(s: State, o: OpId, a: SnapId, held: bool): Option<Effect> {
    if a !in s.arts then None
    else if held then Some(End(Plain(true)).(art := At(a, Returned(s.arts[a]))))
    else if s.arts[a].lock.Some? then None
    else Some(Goto(InspectSnapshot(a, true)).(art := At(a, Leased(s.arts[a], o))))
  }

  /** Takes one lock after another, in the order in which the map was read, and holds none while it waits. */
  function ListStep(s: State, todo: seq<SnapId>): Option<Effect> {
    if todo == [] then Some(End(Plain(true)))
    else if todo[0] !in s.arts || s.arts[todo[0]].lock.Some? then None
    else Some(Goto(ListSnapshots(todo[1..])))
  }

  /** `Broken` leaves the directory whole, `Unheard` removes it and still reports an error. */
  function DropStep(s: State, c: Choice, a: SnapId, dropped: bool): Option<Effect> {
    if a !in s.arts then None
    else if dropped then Some(End(Plain(true)).(ids := Unlist(a)))
    else
      var gone := Returned(s.arts[a]).(intact := s.arts[a].intact && c == Broken);
      Some((if c == Fine then Goto(DropSnapshot(a, true)) else End(Plain(false))).(art := At(a, gone)))
  }

  // ---------------------------------------------------------------------------------- the step relation

  /** The entry of an operation up to its first await point. */
  function BeginOp(s: State, o: OpId, request: Request): Effect {
    match request
    case Create => StartLaunch(s, ForCreate)
    case Clone(snap, count) =>
      if 1 <= count <= 32 && snap in s.listed then Goto(WaitClone(snap, count)) else End(CloneErr([]))
    case RollBack(target, snap) =>
      if target in s.sandboxes then Goto(Rollback(target, s.sandboxes[target], LockSource(snap)))
      else End(RollbackErr(target, None))
    case DeleteSandbox(id) => Goto(Delete(Asked, id, Remove))
    case ControlSandbox(kind, id) =>
      if id in s.sandboxes then Goto(Control(kind, s.sandboxes[id], false)) else End(Plain(false))
    case CreateSnapshot(id) =>
      if id in s.sandboxes then Goto(Capture(id, s.sandboxes[id], LockRecord)) else End(Plain(false))
    case ReadSnapshot(snap) =>
      if snap in s.listed then Goto(InspectSnapshot(snap, false)) else End(Plain(false))
    case ListThem(id, order) =>
      if id in s.sandboxes && forall snap | snap in order :: snap in s.listed then Goto(ListSnapshots(order))
      else End(Plain(false))
    case DeleteSnapshot(snap) =>  // `try_lock`: never waits
      if snap in s.listed && snap in s.arts && s.arts[snap].lock.None?
      then Goto(DropSnapshot(snap, false)).(art := At(snap, Leased(s.arts[snap], o)))
      else End(Plain(false))
  }

  function StepOp(s: State, o: OpId, c: Choice, pc: Pc): Option<Effect> {
    match pc
    case Launch(p, id, phase) => LaunchStep(s, o, c, p, id, phase)
    case Delete(cause, id, phase) => DeleteStep(s, o, c, cause, id, phase)
    case WaitClone(snap, want) => CloneStep(s, o, c, snap, want, false)
    case VerifyClone(snap, want) => CloneStep(s, o, c, snap, want, true)
    case Rollback(target, src, phase) =>
      if phase.LockSource? || phase.FindSnapshot? || phase.LockSnapshot? || phase.Verify?
      then RollbackPrepare(s, o, c, target, src, phase) else RollbackFinish(s, o, c, target, src, phase)
    case Control(kind, v, held) => ControlStep(s, o, c, kind, v, held)
    case Capture(id, v, phase) => CaptureStep(s, o, c, id, v, phase)
    case InspectSnapshot(a, held) => InspectStep(s, o, a, held)
    case ListSnapshots(todo) => ListStep(s, todo)
    case DropSnapshot(a, dropped) => DropStep(s, c, a, dropped)
    case Finished(_) => None
  }

  /** `None` when the action is not possible in `s`: a lock is taken, or the operation is over. */
  function Next(s: State, a: Action): Option<State> {
    match a
    case Begin(o, request) => if o in s.ops then None else Some(Apply(s, o, BeginOp(s, o, request)))
    case Step(o, c) =>
      if o !in s.ops then None else
      var e := StepOp(s, o, c, s.ops[o]);
      if e.None? then None else Some(Apply(s, o, e.value))
    case Damage(snap) =>
      if snap in s.arts && s.arts[snap].lock.None?
      then Some(s.(arts := s.arts[snap := s.arts[snap].(intact := false)]))
      else None
  }

  /** A run: the states passed through and the action between each two of them. */
  predicate IsRun(states: seq<State>, actions: seq<Action>) {
    && |states| == |actions| + 1
    && forall i {:trigger actions[i]} | 0 <= i < |actions| :: Next(states[i], actions[i]) == Some(states[i + 1])
  }
}
