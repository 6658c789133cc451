/**
One `create_snapshot` call over the snapshot store: pause, capture, stage, resume, finalize, publish.

Every call into the VMM can be refused, or carried out with its reply lost; every store step can fail.
The guest keeps changing its image whenever its virtual CPUs run.
*/
module CreateSnapshot {
  import opened Core
  import opened SnapshotStore

  datatype Image = Image(vmstate: Content, memory: Content, rootfs: Content)

  datatype Reply = Done | Refused | Lost

  datatype Faults = Faults(pause: Reply, capture: Reply, resume: Reply, reconnected: bool, store: set<Fault>)

  datatype CreateError = Conflict | Vmm | GuestLink | Storage(error: StoreError)

  /** A sandbox record together with the virtual machine behind it. */
  class Sandbox {
    const id: nat
    const spec: string
    const token: Content
    var state: SandboxState
    var running: bool
    var image: Image
    /** Capture files that are still in the jail, by snapshot id. */
    var captures: map<nat, Image>

    constructor (id: nat, spec: string, token: Content, image: Image)
      ensures this.id == id && this.spec == spec && this.token == token && this.image == image
      ensures state == Running && running && captures == map[]
    {
      this.id, this.spec, this.token, this.image := id, spec, token, image;
      state, running, captures := Running, true, map[];
    }

    /** Record and machine agree on whether the virtual CPUs run. */
    predicate Agrees()
      reads this
    {
      (state == Running ==> running) && (state == Paused ==> !running)
    }

    /** The guest works on, if it runs. */
    method Elapse(next: Image)
      modifies this`image
      ensures image == if running then next else old(image)
    {
      if running {
        image := next;
      }
    }

    method Patch(run: bool, reply: Reply) returns (ok: bool)
      modifies this`running
      ensures ok <==> reply == Done
      ensures running == if reply == Refused then old(running) else run
    {
      if reply != Refused {
        running := run;
      }
      return reply == Done;
    }
  }

  class SnapshotRuntime {
    const store: Store
    var snapshots: map<nat, Artifact>

    constructor (store: Store)
      ensures this.store == store && snapshots == map[]
    {
      this.store, snapshots := store, map[];
    }

    /** The request that `create_snapshot` stages for a captured image. */
    function Request(source: Sandbox, id: nat, name: Option<string>, now: nat, initial: SandboxState,
                     captured: Image, rootfs: Content): StageRequest
    {
      StageRequest(id, source.id, name, initial, source.spec, captured.vmstate, captured.memory, rootfs, source.token, now)
    }

    predicate CaptureWorks(state: SandboxState, faults: Faults) {
      state in {Running, Paused} && (state == Running ==> faults.pause == Done) && faults.capture == Done
    }

    /** The chmod right after the creation of the partial directory is not cleaned up after. */
    predicate LeavesEmptyDir(state: SandboxState, vacant: bool, faults: Faults) {
      CaptureWorks(state, faults) && vacant && CreateDir !in faults.store && ModeDir in faults.store
    }

    predicate StagingWorks(faults: Faults) {
      faults.store !! {CreateDir, ModeDir} + COPY_FAULTS + TOKEN_FAULTS
    }

    predicate PublishWorks(faults: Faults) {
      faults.store !! HASH_FAULTS + PUBLISH_FAULTS
    }

    /** The call's own resume or reconnect fails. */
    predicate ResumeBreaks(state: SandboxState, faults: Faults) {
      state == Running && faults.pause == Done && (faults.resume != Done || !faults.reconnected)
    }

    /** The published files of a staged request verify, and hold what was requested. */
    lemma PublishedIntact(request: StageRequest)
      ensures var m := PublishedManifest(store.FreshManifest(request), StagedFiles(request));
        && store.Intact(StagedFiles(request)[ManifestFile := Json(m)], m)
        && m.source == request.source && m.sourceState == request.sourceState
    {
      var m := PublishedManifest(store.FreshManifest(request), StagedFiles(request));
      store.VerdictIsIdentity(request, StagedFiles(request)[ManifestFile := Json(m)]);
      store.FilledFacts(store.FreshManifest(request), StagedFiles(request), |ARTIFACTS|);
    }

    /** The one moment that a snapshot shows: the pause, or all of a call on a paused machine. */
    function Instant(initial: SandboxState, image: Image, moments: seq<Image>): Image
      requires |moments| >= 3
    {
      if initial == Running then moments[0] else image
    }

    /** The staged directory and manifest are those of the request. */
    ghost predicate StagedAs(request: StageRequest, staged: Staged)
      reads store
    {
      && staged == Staged(request.id, store.FreshManifest(request))
      && Partial(request.id) in store.dirs && store.dirs[Partial(request.id)] == StagedFiles(request)
    }

    /** What a published directory must show for the request it came from. */
    ghost predicate Faithful(request: StageRequest, m: Manifest)
      reads store
    {
      && Published(request.id) in store.dirs
      && var files := store.dirs[Published(request.id)];
        && store.Intact(files, m) && m.source == request.source && m.sourceState == request.sourceState
        && files == StagedFiles(request)[ManifestFile := Json(m)]
    }

    /** The rest of the call once the record's lock is released. */
    method Publish(staged: Staged, faults: Faults, ghost request: StageRequest) returns (r: Result<Manifest, CreateError>)
      requires Published(staged.id) !in store.dirs && Partial(staged.id) in store.dirs
      requires HasArtifacts(store.dirs[Partial(staged.id)])
      modifies this, store
      ensures r.Ok? <==> PublishWorks(faults)
      ensures r.Err? ==> store.dirs == old(store.dirs) - {Partial(staged.id)} && snapshots == old(snapshots)
      ensures r.Ok? ==>
        && snapshots == old(snapshots)[staged.id := Artifact(Published(staged.id), r.value)]
        && Published(staged.id) in store.dirs
        && store.dirs - {Published(staged.id)} == old(store.dirs) - {Partial(staged.id)}
      ensures r.Ok? && old(StagedAs(request, staged)) ==> Faithful(request, r.value)
    {
      var finalized := store.Finalize(staged, faults.store);
      if finalized.Err? {
        return Err(Storage(finalized.error));
      }
      snapshots := snapshots[staged.id := finalized.value];
      PublishedIntact(request);
      return Ok(finalized.value.manifest);
    }

    /** Resumes a machine the call paused and leaves the record in its final state. */
    method Restore(source: Sandbox, initial: SandboxState, paused: bool, faults: Faults) returns (error: Option<CreateError>)
      requires paused ==> source.state == Paused
      modifies source`state, source`running
      ensures error.None? <==> paused ==> faults.resume == Done && faults.reconnected
      ensures source.state == if error.None? then initial else SandboxState.Failed
      ensures source.running == if paused && faults.resume != Refused then true else old(source.running)
    {
      error := None;
      if paused {
        var resumed := source.Patch(true, faults.resume);
        if !resumed {
          error := Some(Vmm);
        } else if !faults.reconnected {
          error := Some(GuestLink);
        }
      }
      source.state := if error.None? then initial else SandboxState.Failed;
    }

    /** Pause if needed, capture, stage, and clear the capture files out of the jail. */
    method Capture(source: Sandbox, id: nat, name: Option<string>, now: nat, moments: seq<Image>, faults: Faults)
      returns (paused: bool, r: Result<Staged, CreateError>)
      requires source.state in {Running, Paused} && |moments| >= 3
      modifies source, store
      ensures paused <==> old(source.state) == Running && faults.pause == Done
      ensures source.state == if paused then Paused else old(source.state)
      ensures source.running
              == if old(source.state) == Running && faults.pause != Refused then false else old(source.running)
      ensures source.captures == old(source.captures) - {id}
      ensures r.Ok? <==>
        CaptureWorks(old(source.state), faults) && old(store.Vacant(id)) && StagingWorks(faults)
      ensures r.Ok? && old(source.Agrees()) ==>
        var instant := Instant(old(source.state), old(source.image), moments);
        StagedAs(Request(source, id, name, now, old(source.state), instant, instant.rootfs), r.value)
      ensures r.Ok? ==>
        && r.value.id == id && Partial(id) in store.dirs && HasArtifacts(store.dirs[Partial(id)])
        && store.dirs == old(store.dirs)[Partial(id) := store.dirs[Partial(id)]]
      ensures r.Err? ==>
        store.dirs == if LeavesEmptyDir(old(source.state), old(store.Vacant(id)), faults)
                      then old(store.dirs)[Partial(id) := map[]] else old(store.dirs)
    {
      var initial := source.state;
      paused := false;
      r := Err(Vmm);
      source.Elapse(moments[0]);
      var stopped := true;
      if initial == Running {
        stopped := source.Patch(false, faults.pause);
        if stopped {
          source.state := Paused;
          paused := true;
        }
      }
      if stopped {
        source.Elapse(moments[1]);
        if faults.capture != Refused {
          source.captures := source.captures[id := source.image];
        }
        if faults.capture == Done {
          source.Elapse(moments[2]);
          var request := Request(source, id, name, now, initial, source.captures[id], source.image.rootfs);
          var staged := store.Stage(request, faults.store);
          r := if staged.Ok? then Ok(staged.value) else Err(Storage(staged.error));
        }
      }
      source.captures := source.captures - {id};
    }

    /** Everything `create_snapshot` does under the record's lock. */
    method Locked(source: Sandbox, id: nat, name: Option<string>, now: nat, moments: seq<Image>, faults: Faults)
      returns (captured: Result<Staged, CreateError>, broken: Option<CreateError>)
      requires source.state in {Running, Paused} && |moments| >= 3
      modifies source, store
      ensures source.state == if ResumeBreaks(old(source.state), faults) then SandboxState.Failed else old(source.state)
      ensures old(source.Agrees()) ==>
        (source.Agrees() <==> !(old(source.state) == Running && faults.pause == Lost))
      ensures source.captures == old(source.captures) - {id}
      ensures broken.Some? <==> ResumeBreaks(old(source.state), faults)
      ensures captured.Ok? <==>
        CaptureWorks(old(source.state), faults) && old(store.Vacant(id)) && StagingWorks(faults)
      ensures captured.Ok? && old(source.Agrees()) ==>
        StagedAs(Request(source, id, name, now, old(source.state), Instant(old(source.state), old(source.image), moments),
                         Instant(old(source.state), old(source.image), moments).rootfs), captured.value)
      ensures captured.Ok? ==>
        && captured.value.id == id && Partial(id) in store.dirs && HasArtifacts(store.dirs[Partial(id)])
        && store.dirs == old(store.dirs)[Partial(id) := store.dirs[Partial(id)]]
      ensures captured.Err? ==>
        store.dirs == if LeavesEmptyDir(old(source.state), old(store.Vacant(id)), faults)
                      then old(store.dirs)[Partial(id) := map[]] else old(store.dirs)
    {
      var initial := source.state;
      var paused;
      paused, captured := Capture(source, id, name, now, moments, faults);
      broken := Restore(source, initial, paused, faults);
    }

    /** After the record's lock is released: discard what was staged, or publish it. */
    method Conclude(captured: Result<Staged, CreateError>, broken: Option<CreateError>, faults: Faults,
                    ghost request: StageRequest)
      returns (r: Result<Manifest, CreateError>)
      requires captured.Ok? ==>
        && Published(captured.value.id) !in store.dirs && Partial(captured.value.id) in store.dirs
        && HasArtifacts(store.dirs[Partial(captured.value.id)])
      modifies this, store
      ensures r.Ok? <==> captured.Ok? && broken.None? && PublishWorks(faults)
      ensures r.Err? ==> snapshots == old(snapshots)
      ensures captured.Err? ==> store.dirs == old(store.dirs)
      ensures captured.Ok? && r.Err? ==> store.dirs == old(store.dirs) - {Partial(captured.value.id)}
      ensures r.Ok? ==>
        var id := captured.value.id;
        && snapshots == old(snapshots)[id := Artifact(Published(id), r.value)]
        && Published(id) in store.dirs && store.dirs - {Published(id)} == old(store.dirs) - {Partial(id)}
      ensures r.Ok? && old(StagedAs(request, captured.value)) ==> Faithful(request, r.value)
    {
      if captured.Err? {
        return Err(captured.error);
      }
      if broken.Some? {
        store.Discard(captured.value);
        return Err(broken.value);
      }
      r := Publish(captured.value, faults, request);
    }

    /**
    Whatever fails, the record ends in its initial state, or in `Failed` exactly when the call's own
    resume or reconnect failed; the snapshot is listed exactly when the call succeeds; an error leaves
    the store unchanged, except for the empty directory of a failing chmod; a success publishes
    an artifact that verifies, and whose memory and disk are of one instant.
    */
    method Create(source: Sandbox, id: nat, name: Option<string>, now: nat, moments: seq<Image>, faults: Faults)
      returns (r: Result<Manifest, CreateError>)
      requires |moments| >= 3
      modifies this, source, store
      ensures r.Ok? <==>
        && CaptureWorks(old(source.state), faults) && !ResumeBreaks(old(source.state), faults)
        && old(store.Vacant(id)) && StagingWorks(faults) && PublishWorks(faults)
      ensures source.state == if ResumeBreaks(old(source.state), faults) then SandboxState.Failed else old(source.state)
      ensures old(source.Agrees()) ==>
        (source.Agrees() <==> !(old(source.state) == Running && faults.pause == Lost))
      ensures source.captures == if old(source.state) in {Running, Paused} then old(source.captures) - {id}
                                 else old(source.captures)
      ensures r.Err? ==> snapshots == old(snapshots)
      ensures r.Err? ==>
        store.dirs == if LeavesEmptyDir(old(source.state), old(store.Vacant(id)), faults)
                      then old(store.dirs)[Partial(id) := map[]] else old(store.dirs)
      ensures r.Ok? ==>
        var artifact := Artifact(Published(id), r.value);
        && snapshots == old(snapshots)[id := artifact]
        && Published(id) in store.dirs
        && store.dirs - {Published(id)} == old(store.dirs)
      ensures r.Ok? && old(source.Agrees()) ==>
        var instant := Instant(old(source.state), old(source.image), moments);
        Faithful(Request(source, id, name, now, old(source.state), instant, instant.rootfs), r.value)
    {
      if source.state !in {Running, Paused} {
        return Err(Conflict);
      }
      ghost var instant := Instant(source.state, source.image, moments);
      ghost var request := Request(source, id, name, now, source.state, instant, instant.rootfs);
      var captured, broken := Locked(source, id, name, now, moments, faults);
      r := Conclude(captured, broken, faults, request);
    }
  }
}
