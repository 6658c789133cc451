/**
The resources of one host: what a launch acquires, what a failing launch gives back, what a
termination releases.

Every step of a launch and every clean-up can fail. Removing a network lease never reports an error.
Names of namespaces, links and tables are made of the first eight hex digits of a sandbox id only, so
two ids can share their `lease`; setting up a lease whose names are in use fails.
*/
module LaunchLedger {
  import opened Core

  datatype Step =
    | Validate | CreateDirs | CloneKernel | CloneRootfs | CloneState | CloneMemory | Chmod | Chown
    | CreateNetwork | Spawn | Socket | Api | Start | TemplateGuest | TemplateCapture | Guest

  datatype Cleanup = LeaseStays | JailStays | CgroupStays

  datatype LaunchRequest = LaunchRequest(id: nat, lease: nat, networked: bool, restoring: bool, capturing: bool)

  /** A sandbox record owns child, jail and cgroup `jailer` and, if networked, the network `lease`. */
  datatype Record = Record(jailer: nat, lease: nat, state: SandboxState, networked: bool)

  datatype Ledger = Ledger(
    children: set<nat>, leases: set<nat>, jails: set<nat>, cgroups: set<nat>, sandboxes: map<nat, Record>)

  // ------------------------------------------------------------------ what the methods are held to

  /** The file steps that precede the network. */
  function Preparation(request: LaunchRequest): set<Step> {
    {CreateDirs, CloneKernel, CloneRootfs, Chmod, Chown} + if request.restoring then {CloneState, CloneMemory} else {}
  }

  /** The steps that run once the child exists. */
  function Startup(request: LaunchRequest): set<Step> {
    {Socket, Api, Start, Guest} + if request.capturing then {TemplateGuest, TemplateCapture} else {}
  }

  predicate Prepared(request: LaunchRequest, fails: set<Step>) {
    Validate !in fails && fails !! Preparation(request)
  }

  /** The launch gets as far as the network and finds the names of its lease in use. */
  predicate Collides(l: Ledger, request: LaunchRequest, fails: set<Step>) {
    Prepared(request, fails) && request.networked && request.lease in l.leases
  }

  predicate HasNetwork(l: Ledger, request: LaunchRequest, fails: set<Step>) {
    Prepared(request, fails) && (request.networked ==> CreateNetwork !in fails && request.lease !in l.leases)
  }

  predicate Spawned(l: Ledger, request: LaunchRequest, fails: set<Step>) {
    HasNetwork(l, request, fails) && Spawn !in fails
  }

  predicate Works(l: Ledger, request: LaunchRequest, fails: set<Step>) {
    Spawned(l, request, fails) && fails !! Startup(request)
  }

  function If(condition: bool, id: nat): set<nat> { if condition then {id} else {} }

  function Launched(l: Ledger, request: LaunchRequest): Ledger {
    Ledger(l.children + {request.id}, l.leases + If(request.networked, request.lease), l.jails + {request.id},
           l.cgroups + {request.id},
           l.sandboxes[request.id := NewRecord(request)])
  }

  function NewRecord(request: LaunchRequest): Record {
    Record(request.id, request.lease, Running, request.networked)
  }

  /** The leases after a failing launch: its own is kept if it cannot be removed; one whose names it
      shares is taken down. */
  function LeasesLeft(l: Ledger, request: LaunchRequest, fails: set<Step>, stuck: set<Cleanup>): set<nat> {
    if !request.networked || !Prepared(request, fails) then l.leases
    else if LeaseStays in stuck then l.leases + {request.lease}
    else l.leases - {request.lease}
  }

  /** What a failing launch leaves: nothing of its own, but for the acquired things whose removal fails. */
  function Abandoned(l: Ledger, request: LaunchRequest, fails: set<Step>, stuck: set<Cleanup>): Ledger {
    l.(leases := LeasesLeft(l, request, fails, stuck),
       jails := l.jails + If(Validate !in fails && JailStays in stuck, request.id),
       cgroups := l.cgroups + If(Spawned(l, request, fails) && CgroupStays in stuck, request.id))
  }

  /** What is left once `record` was terminated. */
  function Released(l: Ledger, record: Record, stuck: set<Cleanup>): Ledger {
    l.(children := l.children - {record.jailer},
       leases := l.leases - If(record.networked && LeaseStays !in stuck, record.lease),
       jails := l.jails - If(JailStays !in stuck, record.jailer),
       cgroups := l.cgroups - If(CgroupStays !in stuck, record.jailer))
  }

  predicate Unused(l: Ledger, id: nat) {
    id !in l.children && id !in l.jails && id !in l.cgroups && id !in l.sandboxes
  }

  // ------------------------------------------------------------------------------------ the runtime

  class Host {
    var ledger: Ledger

    constructor ()
      ensures ledger == Ledger({}, {}, {}, {}, map[])
    {
      ledger := Ledger({}, {}, {}, {}, map[]);
    }

    method KillAndWait(id: nat)
      modifies this
      ensures ledger == old(ledger).(children := old(ledger).children - {id})
    {
      ledger := ledger.(children := ledger.children - {id});
    }

    method DeleteLease(id: nat, stuck: set<Cleanup>)
      modifies this
      ensures ledger == old(ledger).(leases := old(ledger).leases - If(LeaseStays !in stuck, id))
    {
      if LeaseStays !in stuck {
        ledger := ledger.(leases := ledger.leases - {id});
      }
    }

    method CleanupChroot(id: nat, stuck: set<Cleanup>) returns (ok: bool)
      modifies this
      ensures ok <==> id in old(ledger).jails ==> JailStays !in stuck
      ensures ledger == old(ledger).(jails := old(ledger).jails - If(JailStays !in stuck, id))
    {
      ok := true;
      if id in ledger.jails {
        if JailStays in stuck {
          return false;
        }
        ledger := ledger.(jails := ledger.jails - {id});
      }
    }

    method CleanupCgroup(id: nat, stuck: set<Cleanup>) returns (ok: bool)
      modifies this
      ensures ok <==> id in old(ledger).cgroups ==> CgroupStays !in stuck
      ensures ledger == old(ledger).(cgroups := old(ledger).cgroups - If(CgroupStays !in stuck, id))
    {
      ok := true;
      if id in ledger.cgroups {
        if CgroupStays in stuck {
          return false;
        }
        ledger := ledger.(cgroups := ledger.cgroups - {id});
      }
    }

    /** A failing set-up command takes down what has the lease's names, whoever set it up. */
    method AcquireNetwork(request: LaunchRequest, fails: set<Step>, stuck: set<Cleanup>) returns (ok: bool)
      modifies this
      ensures ok <==> request.networked ==> CreateNetwork !in fails && request.lease !in old(ledger).leases
      ensures request.networked ==>
        ledger == old(ledger).(
          leases := if ok || LeaseStays in stuck then old(ledger).leases + {request.lease}
                    else old(ledger).leases - {request.lease})
      ensures !request.networked ==> ledger == old(ledger)
    {
      if !request.networked {
        return true;
      }
      var inUse := request.lease in ledger.leases;
      ledger := ledger.(leases := ledger.leases + {request.lease});
      if inUse || CreateNetwork in fails {
        DeleteLease(request.lease, stuck);
        return false;
      }
      return true;
    }

    /** The clean-up of every failing step once the child runs. */
    method Abort(request: LaunchRequest, stuck: set<Cleanup>)
      modifies this
      ensures ledger == old(ledger).(
                children := old(ledger).children - {request.id},
                leases := old(ledger).leases - If(request.networked && LeaseStays !in stuck, request.lease))
    {
      KillAndWait(request.id);
      if request.networked {
        DeleteLease(request.lease, stuck);
      }
    }

    /** Creates the jail's directories and fills them. */
    method Prepare(request: LaunchRequest, fails: set<Step>) returns (failed: Option<Step>)
      modifies this
      ensures failed.None? <==> fails !! Preparation(request)
      ensures ledger == old(ledger).(jails := old(ledger).jails + {request.id})
    {
      ledger := ledger.(jails := ledger.jails + {request.id});
      if CreateDirs in fails { return Some(CreateDirs); }
      if CloneKernel in fails { return Some(CloneKernel); }
      if CloneRootfs in fails { return Some(CloneRootfs); }
      if request.restoring {
        if CloneState in fails { return Some(CloneState); }
        if CloneMemory in fails { return Some(CloneMemory); }
      }
      if Chmod in fails { return Some(Chmod); }
      if Chown in fails { return Some(Chown); }
      return None;
    }

    /** Boots the child's guest; the caller aborts after a failure. */
    method Boot(request: LaunchRequest, fails: set<Step>) returns (failed: Option<Step>)
      ensures failed.None? <==> fails !! Startup(request)
    {
      if Socket in fails { return Some(Socket); }
      if Api in fails { return Some(Api); }
      if Start in fails { return Some(Start); }
      if request.capturing {
        if TemplateGuest in fails { return Some(TemplateGuest); }
        if TemplateCapture in fails { return Some(TemplateCapture); }
      }
      if Guest in fails { return Some(Guest); }
      return None;
    }

    method LaunchInner(request: LaunchRequest, fails: set<Step>, stuck: set<Cleanup>) returns (r: Result<nat, Step>)
      requires Unused(ledger, request.id)
      modifies this
      ensures r == Ok(request.id) <==> Works(old(ledger), request, fails)
      ensures r.Ok? ==> r.value == request.id && ledger == Launched(old(ledger), request)
      ensures r.Err? ==>
        ledger == Abandoned(old(ledger), request, fails, stuck).(
          jails := old(ledger).jails + If(Validate !in fails, request.id),
          cgroups := old(ledger).cgroups + If(Spawned(old(ledger), request, fails), request.id))
    {
      if Validate in fails {
        return Err(Validate);
      }
      var unprepared := Prepare(request, fails);
      if unprepared.Some? {
        return Err(unprepared.value);
      }
      var connected := AcquireNetwork(request, fails, stuck);
      if !connected {
        return Err(CreateNetwork);
      }
      if Spawn in fails {
        if request.networked {
          DeleteLease(request.lease, stuck);
        }
        return Err(Spawn);
      }
      ledger := ledger.(children := ledger.children + {request.id}, cgroups := ledger.cgroups + {request.id});
      var unbooted := Boot(request, fails);
      if unbooted.Some? {
        Abort(request, stuck);
        return Err(unbooted.value);
      }
      ledger := ledger.(sandboxes := ledger.sandboxes[request.id := NewRecord(request)]);
      return Ok(request.id);
    }

    method Launch(request: LaunchRequest, fails: set<Step>, stuck: set<Cleanup>) returns (r: Result<nat, Step>)
      requires Unused(ledger, request.id)
      modifies this
      ensures r == Ok(request.id) <==> Works(old(ledger), request, fails)
      ensures ledger == if Works(old(ledger), request, fails) then Launched(old(ledger), request)
                        else Abandoned(old(ledger), request, fails, stuck)
    {
      r := LaunchInner(request, fails, stuck);
      if r.Err? {
        var jailGone := CleanupChroot(request.id, stuck);
        var cgroupGone := CleanupCgroup(request.id, stuck);
      }
    }

    /** The record's last state is `Deleted` exactly when its jail and its cgroup are gone. */
    method Terminate(record: Record, stuck: set<Cleanup>) returns (last: Record)
      modifies this
      ensures ledger == Released(old(ledger), record, stuck)
      ensures last == record.(state := last.state)
      ensures last.state in {Deleted, SandboxState.Failed}
      ensures last.state == Deleted <==> record.jailer !in ledger.jails && record.jailer !in ledger.cgroups
    {
      last := record.(state := Deleting);
      KillAndWait(record.jailer);
      if record.networked {
        DeleteLease(record.lease, stuck);
      }
      var jailGone := CleanupChroot(record.jailer, stuck);
      var cgroupGone := CleanupCgroup(record.jailer, stuck);
      last := last.(state := if jailGone && cgroupGone then Deleted else SandboxState.Failed);
    }

    /** The record leaves the map before it is terminated. */
    method Delete(id: nat, stuck: set<Cleanup>) returns (last: Option<Record>)
      modifies this
      ensures id !in old(ledger).sandboxes ==> last.None? && ledger == old(ledger)
      ensures id in old(ledger).sandboxes ==>
        var record := old(ledger).sandboxes[id];
        && last.Some? && last.value == record.(state := last.value.state)
        && last.value.state in {Deleted, SandboxState.Failed}
        && (last.value.state == Deleted <==> record.jailer !in ledger.jails && record.jailer !in ledger.cgroups)
        && ledger == Released(old(ledger).(sandboxes := old(ledger).sandboxes - {id}), record, stuck)
    {
      if id !in ledger.sandboxes {
        return None;
      }
      var record := ledger.sandboxes[id];
      ledger := ledger.(sandboxes := ledger.sandboxes - {id});
      var terminated := Terminate(record, stuck);
      return Some(terminated);
    }
  }

  // ------------------------------------------------------------------------------- conservation

  /** Resources nobody owns any more, because their removal failed. */
  datatype Lost = Lost(leases: set<nat>, jails: set<nat>, cgroups: set<nat>)

  function Owners(l: Ledger): set<nat> { set key | key in l.sandboxes :: l.sandboxes[key].jailer }

  function Leaseholders(l: Ledger): set<nat> {
    set key | key in l.sandboxes && l.sandboxes[key].networked :: l.sandboxes[key].lease
  }

  predicate SameLease(a: Record, b: Record) { a.networked && b.networked && a.lease == b.lease }

  /** No two records own the same child, or the same lease. */
  ghost predicate Separate(l: Ledger) {
    forall a, b | a in l.sandboxes && b in l.sandboxes && a != b ::
      l.sandboxes[a].jailer != l.sandboxes[b].jailer && !SameLease(l.sandboxes[a], l.sandboxes[b])
  }

  /** Each child, lease, jail and cgroup belongs to exactly one record or is counted as lost. */
  ghost predicate Balanced(l: Ledger, lost: Lost) {
    && l.children == Owners(l)
    && l.leases == Leaseholders(l) + lost.leases && Leaseholders(l) !! lost.leases
    && l.jails == Owners(l) + lost.jails && Owners(l) !! lost.jails
    && l.cgroups == Owners(l) + lost.cgroups && Owners(l) !! lost.cgroups
    && Separate(l)
  }

  lemma OwnersAfterInsert(l: Ledger, id: nat, record: Record)
    requires id !in l.sandboxes
    ensures var m := l.(sandboxes := l.sandboxes[id := record]);
      Owners(m) == Owners(l) + {record.jailer} && Leaseholders(m) == Leaseholders(l) + If(record.networked, record.lease)
  {
    var m := l.(sandboxes := l.sandboxes[id := record]);
    assert id in m.sandboxes && m.sandboxes[id] == record;
    forall key | key in l.sandboxes ensures key in m.sandboxes && m.sandboxes[key] == l.sandboxes[key] {}
  }

  lemma OwnersAfterRemoval(l: Ledger, id: nat)
    requires Separate(l) && id in l.sandboxes
    ensures var m := l.(sandboxes := l.sandboxes - {id});
      var record := l.sandboxes[id];
      && Owners(m) == Owners(l) - {record.jailer} && Separate(m)
      && Leaseholders(m) == Leaseholders(l) - If(record.networked, record.lease)
      && record.jailer in Owners(l) && (record.networked ==> record.lease in Leaseholders(l))
  {
    var m := l.(sandboxes := l.sandboxes - {id});
    forall key | key in m.sandboxes ensures key in l.sandboxes && m.sandboxes[key] == l.sandboxes[key] {}
  }

  /** What a failing launch adds to what is lost. */
  function LostBy(l: Ledger, request: LaunchRequest, fails: set<Step>, stuck: set<Cleanup>, lost: Lost): Lost {
    var left := Abandoned(l, request, fails, stuck);
    Lost(if Collides(l, request, fails) then lost.leases * left.leases else lost.leases + (left.leases - l.leases),
         lost.jails + (left.jails - l.jails), lost.cgroups + (left.cgroups - l.cgroups))
  }

  /** A working launch keeps the books balanced. So does a failing one, exactly if it does not take down
      the lease of a sandbox whose names it shares; what it adds to the lost is what it acquired and could
      not remove, and that is nothing if removals work. */
  lemma LaunchBalances(l: Ledger, lost: Lost, request: LaunchRequest, fails: set<Step>, stuck: set<Cleanup>)
    requires Balanced(l, lost) && Unused(l, request.id)
    ensures Works(l, request, fails) ==> Balanced(Launched(l, request), lost)
    ensures Balanced(Abandoned(l, request, fails, stuck), LostBy(l, request, fails, stuck, lost))
            <==> !(Collides(l, request, fails) && request.lease in Leaseholders(l) && LeaseStays !in stuck)
    ensures stuck == {} && !Collides(l, request, fails) ==> Abandoned(l, request, fails, stuck) == l
  {
    if Works(l, request, fails) { WorkingBalances(l, lost, request); }
    FailingBalances(l, lost, request, fails, stuck);
  }

  lemma WorkingBalances(l: Ledger, lost: Lost, request: LaunchRequest)
    requires Balanced(l, lost) && Unused(l, request.id) && (request.networked ==> request.lease !in l.leases)
    ensures Balanced(Launched(l, request), lost)
  {
    OwnersAfterInsert(l, request.id, NewRecord(request));
    var up := Launched(l, request);
    assert Owners(up) == Owners(l) + {request.id};
    assert Leaseholders(up) == Leaseholders(l) + If(request.networked, request.lease);
    forall key | key in l.sandboxes
      ensures l.sandboxes[key].jailer in Owners(l)
      ensures l.sandboxes[key].networked ==> l.sandboxes[key].lease in Leaseholders(l)
    {}
  }

  lemma FailingBalances(l: Ledger, lost: Lost, request: LaunchRequest, fails: set<Step>, stuck: set<Cleanup>)
    requires Balanced(l, lost) && Unused(l, request.id)
    ensures Balanced(Abandoned(l, request, fails, stuck), LostBy(l, request, fails, stuck, lost))
            <==> !(Collides(l, request, fails) && request.lease in Leaseholders(l) && LeaseStays !in stuck)
  {
    var left := Abandoned(l, request, fails, stuck);
    assert Owners(left) == Owners(l) && Leaseholders(left) == Leaseholders(l);
  }

  /** What of a record could not be removed. */
  function Stuck(record: Record, stuck: set<Cleanup>, lost: Lost): Lost {
    Lost(lost.leases + If(record.networked && LeaseStays in stuck, record.lease),
         lost.jails + If(JailStays in stuck, record.jailer), lost.cgroups + If(CgroupStays in stuck, record.jailer))
  }

  /** A deletion keeps the books balanced, under any key. */
  lemma DeleteBalances(l: Ledger, lost: Lost, id: nat, stuck: set<Cleanup>)
    requires Balanced(l, lost) && id in l.sandboxes
    ensures var record := l.sandboxes[id];
      Balanced(Released(l.(sandboxes := l.sandboxes - {id}), record, stuck), Stuck(record, stuck, lost))
  {
    OwnersAfterRemoval(l, id);
    var m := l.(sandboxes := l.sandboxes - {id});
    var released := Released(m, l.sandboxes[id], stuck);
    assert Owners(released) == Owners(m) && Leaseholders(released) == Leaseholders(m);
  }

  /** A rollback's swap: the replacement's record moves under the public id, and the old record is terminated. */
  function Swapped(l: Ledger, target: nat, replacement: nat): map<nat, Record>
    requires replacement in l.sandboxes
  {
    (l.sandboxes - {replacement})[target := l.sandboxes[replacement]]
  }

  /** Which id a record is under does not matter. */
  lemma MoveKeeps(l: Ledger, from: nat, to: nat)
    requires Separate(l) && from in l.sandboxes && to !in l.sandboxes
    ensures var m := l.(sandboxes := (l.sandboxes - {from})[to := l.sandboxes[from]]);
      Owners(m) == Owners(l) && Leaseholders(m) == Leaseholders(l) && Separate(m)
  {
    OwnersAfterRemoval(l, from);
    OwnersAfterInsert(l.(sandboxes := l.sandboxes - {from}), to, l.sandboxes[from]);
  }

  /** And it keeps the books balanced, whatever of the old record cannot be removed. */
  lemma SwapBalances(l: Ledger, lost: Lost, target: nat, replacement: nat, stuck: set<Cleanup>)
    requires Balanced(l, lost) && target in l.sandboxes && replacement in l.sandboxes && target != replacement
    ensures var record := l.sandboxes[target];
      Balanced(Released(l.(sandboxes := Swapped(l, target, replacement)), record, stuck), Stuck(record, stuck, lost))
  {
    DeleteBalances(l, lost, target, stuck);
    var released := Released(l.(sandboxes := l.sandboxes - {target}), l.sandboxes[target], stuck);
    MoveKeeps(released, replacement, target);
    assert (released.sandboxes - {replacement})[target := l.sandboxes[replacement]] == Swapped(l, target, replacement);
  }

  /** Deleting what a launch created gives back the host as it was. */
  lemma DeleteUndoesLaunch(l: Ledger, request: LaunchRequest)
    requires Unused(l, request.id) && (request.networked ==> request.lease !in l.leases)
    ensures var up := Launched(l, request);
      Released(up.(sandboxes := up.sandboxes - {request.id}), up.sandboxes[request.id], {}) == l
  {
    var up := Launched(l, request);
    var down := Released(up.(sandboxes := up.sandboxes - {request.id}), up.sandboxes[request.id], {});
    assert down.sandboxes == l.sandboxes && down.children == l.children;
    assert down.leases == l.leases && down.jails == l.jails && down.cgroups == l.cgroups;
  }
}
