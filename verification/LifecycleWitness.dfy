/** Two concrete runs: the deadlock outside the discipline, and the window in which a guest's identity disagrees. */
module LifecycleWitness {
  import opened Core
  import opened GuestAgent
  import opened Lifecycle
  import opened LifecycleInvariant
  import opened LifecycleTheorems

  const FIRST: Identity := Keyed(0, Sha256(2))

  lemma Go(s: State, a: Action) returns (t: State)
    requires Reachable(s) && Next(s, a).Some?
    ensures Reachable(t) && Next(s, a) == Some(t)
  {
    ReachableNext(s, a);
    t := Next(s, a).value;
  }

  predicate Stands(s: State, o: OpId, pc: Pc, next: nat) { o in s.ops && s.ops[o] == pc && s.next == next }

  /** Sandbox 0 runs in VM 1, unlocked. */
  predicate FirstRuns(s: State) {
    && 0 in s.sandboxes && s.sandboxes[0] == 1 && Known(s, 1)
    && s.records[1] == Rec(Running, 2, None, 0, false) && s.vms[1].guest == FIRST && s.vms[1].kills == 0
  }

  lemma Boots() returns (s: State)
    ensures Reachable(s) && Stands(s, 0, Launch(ForCreate, 0, Key(1, 2)), 3) && s.ops.Keys == {0}
    ensures 1 in s.vms && s.vms[1].guest == Blank && s.vms[1].kills == 0
  {
    assert IsRun([INITIAL], []);
    s := Go(INITIAL, Begin(0, Create));
    s := Go(s, Step(0, Fine));
    s := Go(s, Step(0, Fine));
  }

  lemma Creates() returns (s: State)
    ensures Reachable(s) && FirstRuns(s) && s.ops.Keys == {0} && s.next == 6
  {
    s := Boots();
    s := Go(s, Step(0, Fine));
    s := Go(s, Step(0, Fine));
    s := Go(s, Step(0, Fine));
  }

  /** Snapshot 11 of sandbox 0. */
  predicate Snapped(s: State, lock: Option<OpId>) {
    11 in s.listed && 11 in s.arts && s.arts[11] == Art(0, 2, FIRST, true, lock, false)
  }

  lemma Captures() returns (s: State)
    ensures Reachable(s) && FirstRuns(s) && Snapped(s, None) && s.ops.Keys == {0, 1} && s.next == 12
  {
    s := Creates();
    s := Go(s, Begin(1, CreateSnapshot(0)));
    s := Go(s, Step(1, Fine));
    s := Go(s, Step(1, Fine));
    s := CapturesRest(s);
  }

  lemma CapturesRest(s: State) returns (t: State)
    requires Reachable(s) && Stands(s, 1, Capture(0, 1, TakeShot(Running, true)), 9) && s.ops.Keys == {0, 1}
    requires 0 in s.sandboxes && s.sandboxes[0] == 1 && Known(s, 1) && s.vms[1].guest == FIRST && s.vms[1].kills == 0
    requires s.records[1] == Rec(Paused, 2, Some(1), 0, false)
    ensures Reachable(t) && FirstRuns(t) && Snapped(t, None) && t.ops.Keys == {0, 1} && t.next == 12
  {
    t := Go(s, Step(1, Fine));
    t := Go(t, Step(1, Fine));
    t := Go(t, Step(1, Fine));
  }

  // ---------------------------------------------------------------------------------- the deadlock

  lemma CloneBoots() returns (s: State)
    ensures Reachable(s) && Snapped(s, Some(2)) && 3 !in s.ops
    ensures Stands(s, 2, Launch(ForClone(11, 2, []), 14, Boot(15)), 16) && 15 in s.vms && s.vms[15].guest == FIRST
  {
    s := Captures();
    s := Go(s, Begin(2, Clone(11, 2)));
    s := Go(s, Step(2, Fine));
    s := Go(s, Step(2, Fine));
    s := Go(s, Step(2, Fine));
  }

  /** A clone of two has mapped its first sandbox, id 14, and is about to launch the second. */
  lemma CloneMapsOne() returns (s: State)
    ensures Reachable(s) && Snapped(s, Some(2)) && 3 !in s.ops
    ensures Stands(s, 2, Launch(ForClone(11, 2, [14]), 19, Prepare), 20)
    ensures 14 in s.sandboxes && s.sandboxes[14] == 15 && Known(s, 15)
    ensures s.records[15].state == Running && s.records[15].lock.None?
  {
    s := CloneBoots();
    s := Go(s, Step(2, Fine));
    s := Go(s, Step(2, Fine));
    s := Go(s, Step(2, Fine));
    assert [] + [14] == [14];
    s := Go(s, Step(2, Fine));
  }

  /** The deadlock is real: a rollback of the clone that nobody has been told about locks its record
      and waits for the snapshot; then the second launch fails and the clone waits for that record. */
  lemma DeadlockWitness() returns (s: State)
    ensures Reachable(s) && Embraced(s, 2, 3)
  {
    s := CloneMapsOne();
    s := Go(s, Begin(3, RollBack(14, 11)));
    s := Go(s, Step(3, Fine));
    s := Go(s, Step(3, Fine));
    s := Go(s, Step(2, Broken));
    s := Go(s, Step(2, Fine));
  }

  // ---------------------------------------------------------------------------------- the disagreement

  lemma RollbackVerifies() returns (s: State)
    ensures Reachable(s) && Snapped(s, Some(2)) && 3 !in s.ops
    ensures Stands(s, 2, Launch(ForRollback(0, 1, 11), 16, Prepare), 17)
    ensures 0 in s.sandboxes && s.sandboxes[0] == 1 && Known(s, 1) && s.records[1].lock == Some(2)
  {
    s := Captures();
    s := Go(s, Begin(2, RollBack(0, 11)));
    s := Go(s, Step(2, Fine));
    s := Go(s, Step(2, Fine));
    s := Go(s, Step(2, Fine));
    s := Go(s, Step(2, Fine));
  }

  lemma ReplacementMapped() returns (s: State)
    ensures Reachable(s) && 3 !in s.ops && Stands(s, 2, Rollback(0, 1, FetchReplacement(16)), 22)
    ensures 0 in s.sandboxes && s.sandboxes[0] == 1 && Known(s, 1)
    ensures 16 in s.sandboxes && s.sandboxes[16] == 17 && Known(s, 17)
    ensures s.records[17] == Rec(Running, 18, None, 16, false) && s.vms[17].guest == Keyed(16, Sha256(18)) && s.vms[17].kills == 0
  {
    s := RollbackVerifies();
    s := Go(s, Step(2, Fine));
    s := Go(s, Step(2, Fine));
    s := Go(s, Step(2, Fine));
    s := Go(s, Step(2, Fine));
    s := Go(s, Step(2, Fine));
  }

  lemma ReplacementRekeyed() returns (s: State)
    ensures Reachable(s) && 3 !in s.ops && Stands(s, 2, Rollback(0, 1, Swap(16, 17)), 25)
    ensures 0 in s.sandboxes && s.sandboxes[0] == 1 && Known(s, 1)
    ensures 16 in s.sandboxes && s.sandboxes[16] == 17 && Known(s, 17)
    ensures s.vms[17].guest == Keyed(0, Sha256(23))
  {
    s := ReplacementMapped();
    s := Go(s, Step(2, Fine));
    s := Go(s, Step(2, Fine));
    s := Go(s, Step(2, Fine));
  }

  /** The window is real: a delete wins the race against the swap, and the unlocked entry of the
      replacement, not yet deleted, has a guest that calls itself 0. */
  lemma DisagreementWitness() returns (s: State)
    ensures Reachable(s) && 16 in s.sandboxes && s.sandboxes[16] in s.records && s.records[s.sandboxes[16]].lock.None?
    ensures !Agrees(s, 16)
  {
    s := ReplacementRekeyed();
    s := Go(s, Begin(3, DeleteSandbox(0)));
    s := Go(s, Step(3, Fine));
    s := Go(s, Step(2, Fine));
  }
}
