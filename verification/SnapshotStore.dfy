/**
The snapshot store: staging, publication, verification and deletion of artifact directories.

Hashes and the manifest's serialisation are free constructors, so equal digests mean equal contents.
Which file-system calls fail is the set `fails`; removals during clean-up succeed.
*/
module SnapshotStore {
  import opened Core

  const SCHEMA: nat := 1
  const U64_MAX: nat := 0xFFFF_FFFF_FFFF_FFFF
  const MIN_TOKEN_BYTES: nat := 32

  datatype Name = VmState | Memory | Rootfs | RestoreToken | ManifestFile

  const ARTIFACTS: seq<Name> := [VmState, Memory, Rootfs]

  datatype Content = Raw(bytes: seq<nat>) | Json(manifest: Manifest)

  datatype ArtifactDigest = ArtifactDigest(size: nat, sha: Digest<Content>)

  /** The `digest_sha256` field: empty, or the hash of the manifest serialised with the field empty. */
  datatype Seal = Unsealed | Sealed(of: Manifest)

  datatype Manifest = Manifest(
    schema: nat, id: nat, source: nat, name: Option<string>, createdAt: nat, sourceState: SandboxState, spec: string,
    node: string, architecture: string, firecracker: string, kernel: Digest<Content>,
    artifacts: map<Name, ArtifactDigest>, tokenSha: Digest<Content>, size: nat, seal: Seal)

  type Files = map<Name, Content>

  datatype Dir = Partial(id: nat) | Published(id: nat)

  datatype Artifact = Artifact(root: Dir, manifest: Manifest)

  datatype Staged = Staged(id: nat, manifest: Manifest)

  datatype StageRequest = StageRequest(
    id: nat, source: nat, name: Option<string>, sourceState: SandboxState, spec: string,
    vmstate: Content, memory: Content, rootfs: Content, token: Content, now: nat)

  datatype Fault =
    | CreateDir | ModeDir
    | Copy(name: Name) | Mode(name: Name) | Sync(name: Name)
    | Stat(name: Name) | Hash(name: Name) | Create(name: Name) | Write(name: Name)
    | SyncPartial | Rename | SyncRoot | RemoveDir

  datatype StoreError = Exists | Faulted(fault: Fault) | Missing | Integrity

  function Size(c: Content): nat { if c.Raw? then |c.bytes| else 0 }

  function SaturatingAdd(a: nat, b: nat): nat { Min(a + b, U64_MAX) }

  /** `calculated_digest`: the digest field is left out of what it digests. */
  function CalculatedSeal(m: Manifest): Seal { Sealed(m.(seal := Unsealed)) }

  function ArtifactsOf(request: StageRequest): Files {
    map[VmState := request.vmstate, Memory := request.memory, Rootfs := request.rootfs]
  }

  function StagedFiles(request: StageRequest): Files { ArtifactsOf(request)[RestoreToken := request.token] }

  /** The digests and the size of the first `n` artifacts entered into `m`. */
  function Filled(m: Manifest, files: Files, n: nat): Manifest
    requires n <= |ARTIFACTS| && forall name | name in ARTIFACTS :: name in files
    decreases n
  {
    if n == 0 then m else
    var before := Filled(m, files, n - 1);
    var c := files[ARTIFACTS[n - 1]];
    before.(size := SaturatingAdd(before.size, Size(c)),
            artifacts := before.artifacts[ARTIFACTS[n - 1] := ArtifactDigest(Size(c), Sha256(c))])
  }

  predicate HasArtifacts(files: Files) { forall name | name in ARTIFACTS :: name in files }

  function PublishedManifest(m: Manifest, files: Files): Manifest
    requires HasArtifacts(files)
  {
    var filled := Filled(m, files, |ARTIFACTS|);
    filled.(seal := CalculatedSeal(filled))
  }

  function TotalSize(files: Files, n: nat): nat
    requires n <= |ARTIFACTS| && HasArtifacts(files)
    decreases n
  {
    if n == 0 then 0 else SaturatingAdd(TotalSize(files, n - 1), Size(files[ARTIFACTS[n - 1]]))
  }

  const COPY_FAULTS: set<Fault> :=
    {Copy(VmState), Mode(VmState), Sync(VmState), Copy(Memory), Mode(Memory), Sync(Memory),
     Copy(Rootfs), Mode(Rootfs), Sync(Rootfs)}

  const TOKEN_FAULTS: set<Fault> := {Create(RestoreToken), Write(RestoreToken), Sync(RestoreToken), Mode(RestoreToken)}

  const HASH_FAULTS: set<Fault> :=
    {Stat(VmState), Hash(VmState), Stat(Memory), Hash(Memory), Stat(Rootfs), Hash(Rootfs)}

  const PUBLISH_FAULTS: set<Fault> :=
    {Create(ManifestFile), Write(ManifestFile), Sync(ManifestFile), Mode(ManifestFile), SyncPartial, Rename, SyncRoot}

  class Store {
    const node: string
    const architecture: string
    const firecracker: string
    const kernel: Digest<Content>
    var dirs: map<Dir, Files>

    constructor (node: string, architecture: string, firecracker: string, kernel: Digest<Content>)
      ensures dirs == map[]
      ensures this.node == node && this.architecture == architecture && this.firecracker == firecracker && this.kernel == kernel
    {
      this.node, this.architecture, this.firecracker, this.kernel := node, architecture, firecracker, kernel;
      dirs := map[];
    }

    function FreshManifest(request: StageRequest): Manifest {
      Manifest(SCHEMA, request.id, request.source, request.name, request.now, request.sourceState, request.spec,
               node, architecture, firecracker, kernel, map[], Sha256(request.token), 0, Unsealed)
    }

    predicate Vacant(id: nat)
      reads this
    {
      Partial(id) !in dirs && Published(id) !in dirs
    }

    /** One artifact: clone, chmod, sync. */
    method CopyArtifact(here: Dir, name: Name, source: Content, fails: set<Fault>) returns (r: Result<(), StoreError>)
      requires here in dirs
      modifies this
      ensures dirs == (if Copy(name) in fails then old(dirs) else old(dirs)[here := old(dirs)[here][name := source]])
      ensures r.Ok? <==> fails !! {Copy(name), Mode(name), Sync(name)}
    {
      if Copy(name) in fails {
        return Err(Faulted(Copy(name)));
      }
      dirs := dirs[here := dirs[here][name := source]];
      if Mode(name) in fails {
        return Err(Faulted(Mode(name)));
      }
      if Sync(name) in fails {
        return Err(Faulted(Sync(name)));
      }
      return Ok(());
    }

    /** The restore token: create, write, sync, chmod. */
    method WriteToken(here: Dir, token: Content, fails: set<Fault>) returns (r: Result<(), StoreError>)
      requires here in dirs
      modifies this
      ensures here in dirs && dirs == old(dirs)[here := dirs[here]]
      ensures r.Ok? <==> fails !! TOKEN_FAULTS
      ensures r.Ok? ==> dirs[here] == old(dirs)[here][RestoreToken := token]
    {
      if Create(RestoreToken) in fails {
        return Err(Faulted(Create(RestoreToken)));
      }
      if Write(RestoreToken) in fails {
        dirs := dirs[here := dirs[here][RestoreToken := Raw([])]];
        return Err(Faulted(Write(RestoreToken)));
      }
      dirs := dirs[here := dirs[here][RestoreToken := token]];
      if Sync(RestoreToken) in fails {
        return Err(Faulted(Sync(RestoreToken)));
      }
      if Mode(RestoreToken) in fails {
        return Err(Faulted(Mode(RestoreToken)));
      }
      return Ok(());
    }

    /** Copies the artifacts and the token into the partial directory; the caller cleans up after an error. */
    method StageInner(request: StageRequest, fails: set<Fault>) returns (r: Result<Staged, StoreError>)
      requires Partial(request.id) in dirs && dirs[Partial(request.id)] == map[]
      modifies this
      ensures Partial(request.id) in dirs && dirs == old(dirs)[Partial(request.id) := dirs[Partial(request.id)]]
      ensures r.Ok? <==> fails !! COPY_FAULTS + TOKEN_FAULTS
      ensures r.Ok? ==> dirs[Partial(request.id)] == StagedFiles(request)
      ensures r.Ok? ==> r.value == Staged(request.id, FreshManifest(request))
    {
      var here := Partial(request.id);
      var sources := ArtifactsOf(request);
      for i := 0 to |ARTIFACTS|
        invariant here in dirs && dirs == old(dirs)[here := dirs[here]]
        invariant dirs[here] == map n | n in ARTIFACTS[..i] :: sources[n]
        invariant forall n | n in ARTIFACTS[..i] :: fails !! {Copy(n), Mode(n), Sync(n)}
      {
        var name := ARTIFACTS[i];
        var copied := CopyArtifact(here, name, sources[name], fails);
        if copied.Err? {
          return Err(copied.error);
        }
        assert ARTIFACTS[..i + 1] == ARTIFACTS[..i] + [name];
      }
      assert ARTIFACTS[..|ARTIFACTS|] == ARTIFACTS;
      assert VmState in ARTIFACTS && Memory in ARTIFACTS && Rootfs in ARTIFACTS;
      assert dirs[here] == sources;
      var token := WriteToken(here, request.token, fails);
      if token.Err? {
        return Err(token.error);
      }
      return Ok(Staged(request.id, FreshManifest(request)));
    }

    /** A failure leaves the store as it was, except that a chmod failing right after the partial
        directory was created leaves that directory behind, empty. */
    method Stage(request: StageRequest, fails: set<Fault>) returns (r: Result<Staged, StoreError>)
      modifies this
      ensures r.Ok? <==> old(Vacant(request.id)) && fails !! {CreateDir, ModeDir} + COPY_FAULTS + TOKEN_FAULTS
      ensures r.Ok? ==> dirs == old(dirs)[Partial(request.id) := StagedFiles(request)]
      ensures r.Ok? ==> r.value == Staged(request.id, FreshManifest(request))
      ensures r.Err? && !(old(Vacant(request.id)) && CreateDir !in fails && ModeDir in fails) ==> dirs == old(dirs)
      ensures old(Vacant(request.id)) && CreateDir !in fails && ModeDir in fails
              ==> dirs == old(dirs)[Partial(request.id) := map[]]
    {
      var here := Partial(request.id);
      if !Vacant(request.id) {
        return Err(Exists);
      }
      if CreateDir in fails {
        return Err(Faulted(CreateDir));
      }
      dirs := dirs[here := map[]];
      if ModeDir in fails {
        return Err(Faulted(ModeDir));
      }
      r := StageInner(request, fails);
      if r.Err? {
        dirs := dirs - {here};
      }
    }

    method Discard(staged: Staged)
      modifies this
      ensures dirs == old(dirs) - {Partial(staged.id)}
    {
      dirs := dirs - {Partial(staged.id)};
    }

    /** Fills in the manifest, writes it and renames the directory; the caller cleans up the partial one. */
    method FinalizeInner(staged: Staged, fails: set<Fault>) returns (r: Result<Artifact, StoreError>)
      requires Published(staged.id) !in dirs
      modifies this
      ensures r.Ok? <==> Partial(staged.id) in old(dirs) && HasArtifacts(old(dirs)[Partial(staged.id)])
                         && fails !! HASH_FAULTS + PUBLISH_FAULTS
      ensures r.Ok? ==>
        var files := old(dirs)[Partial(staged.id)];
        var m := PublishedManifest(staged.manifest, files);
        && r.value == Artifact(Published(staged.id), m)
        && dirs == (old(dirs) - {Partial(staged.id)})[Published(staged.id) := files[ManifestFile := Json(m)]]
      ensures r.Err? ==> dirs - {Partial(staged.id)} == old(dirs) - {Partial(staged.id)}
    {
      var here := Partial(staged.id);
      if here !in dirs {
        return Err(Missing);
      }
      var files := dirs[here];
      var manifest := staged.manifest;
      for i := 0 to |ARTIFACTS|
        invariant dirs == old(dirs)
        invariant forall n | n in ARTIFACTS[..i] :: n in files && fails !! {Stat(n), Hash(n)}
        invariant HasArtifacts(files) ==> manifest == Filled(staged.manifest, files, i)
      {
        var name := ARTIFACTS[i];
        assert name in ARTIFACTS;
        if Stat(name) in fails || name !in files {
          return Err(Faulted(Stat(name)));
        }
        if Hash(name) in fails {
          return Err(Faulted(Hash(name)));
        }
        var size := Size(files[name]);
        manifest := manifest.(size := SaturatingAdd(manifest.size, size),
                              artifacts := manifest.artifacts[name := ArtifactDigest(size, Sha256(files[name]))]);
        assert ARTIFACTS[..i + 1] == ARTIFACTS[..i] + [name];
      }
      assert ARTIFACTS[..|ARTIFACTS|] == ARTIFACTS;
      assert VmState in ARTIFACTS && Memory in ARTIFACTS && Rootfs in ARTIFACTS;
      manifest := manifest.(seal := CalculatedSeal(manifest));
      if Create(ManifestFile) in fails {
        return Err(Faulted(Create(ManifestFile)));
      }
      if Write(ManifestFile) in fails || Sync(ManifestFile) in fails || Mode(ManifestFile) in fails {
        dirs := dirs[here := files[ManifestFile := Raw([])]];
        return Err(Faulted(Write(ManifestFile)));
      }
      dirs := dirs[here := files[ManifestFile := Json(manifest)]];
      if SyncPartial in fails {
        return Err(Faulted(SyncPartial));
      }
      if Rename in fails {
        return Err(Faulted(Rename));
      }
      dirs := (dirs - {here})[Published(staged.id) := dirs[here]];
      if SyncRoot in fails {
        dirs := dirs - {Published(staged.id)};
        return Err(Faulted(SyncRoot));
      }
      return Ok(Artifact(Published(staged.id), manifest));
    }

    /** Publication is all or nothing: an error leaves neither the partial nor the final directory. */
    method Finalize(staged: Staged, fails: set<Fault>) returns (r: Result<Artifact, StoreError>)
      requires Published(staged.id) !in dirs
      modifies this
      ensures r.Ok? <==> Partial(staged.id) in old(dirs) && HasArtifacts(old(dirs)[Partial(staged.id)])
                         && fails !! HASH_FAULTS + PUBLISH_FAULTS
      ensures r.Ok? ==>
        var files := old(dirs)[Partial(staged.id)];
        var m := PublishedManifest(staged.manifest, files);
        && r.value == Artifact(Published(staged.id), m)
        && dirs == (old(dirs) - {Partial(staged.id)})[Published(staged.id) := files[ManifestFile := Json(m)]]
      ensures r.Err? ==> dirs == old(dirs) - {Partial(staged.id)}
    {
      r := FinalizeInner(staged, fails);
      if r.Err? {
        dirs := dirs - {Partial(staged.id)};
      }
    }

    /** What the manifest file must say before any artifact is read. */
    predicate Compatible(m: Manifest, expected: Manifest) {
      && m.schema == SCHEMA && m == expected && m.architecture == architecture && m.firecracker == firecracker
      && m.kernel == kernel && m.seal == CalculatedSeal(m) && |m.artifacts| == |ARTIFACTS|
    }

    predicate ArtifactMatches(files: Files, m: Manifest, name: Name) {
      name in m.artifacts && name in files
      && m.artifacts[name] == ArtifactDigest(Size(files[name]), Sha256(files[name]))
    }

    /** The verdict of `verified_manifest` on the files of a directory. */
    predicate Intact(files: Files, expected: Manifest) {
      && ManifestFile in files && files[ManifestFile].Json? && Compatible(files[ManifestFile].manifest, expected)
      && (forall name | name in ARTIFACTS :: ArtifactMatches(files, expected, name))
      && HasArtifacts(files) && TotalSize(files, |ARTIFACTS|) == expected.size
      && RestoreToken in files && Sha256(files[RestoreToken]) == expected.tokenSha
    }

    method VerifiedManifest(artifact: Artifact) returns (r: Result<Manifest, StoreError>)
      ensures r.Ok? <==> artifact.root in dirs && Intact(dirs[artifact.root], artifact.manifest)
      ensures r.Ok? ==> r.value == artifact.manifest
    {
      if artifact.root !in dirs || ManifestFile !in dirs[artifact.root] || !dirs[artifact.root][ManifestFile].Json? {
        return Err(Integrity);
      }
      var files := dirs[artifact.root];
      var manifest := files[ManifestFile].manifest;
      if !Compatible(manifest, artifact.manifest) {
        return Err(Integrity);
      }
      var total := 0;
      for i := 0 to |ARTIFACTS|
        invariant forall n | n in ARTIFACTS[..i] :: ArtifactMatches(files, manifest, n)
        invariant HasArtifacts(files) ==> total == TotalSize(files, i)
      {
        var name := ARTIFACTS[i];
        assert name in ARTIFACTS;
        if name !in manifest.artifacts || name !in files {
          return Err(Integrity);
        }
        var expected := manifest.artifacts[name];
        if Size(files[name]) != expected.size || Sha256(files[name]) != expected.sha {
          return Err(Integrity);
        }
        total := SaturatingAdd(total, Size(files[name]));
        assert ARTIFACTS[..i + 1] == ARTIFACTS[..i] + [name];
      }
      assert ARTIFACTS[..|ARTIFACTS|] == ARTIFACTS;
      if total != manifest.size || RestoreToken !in files || Sha256(files[RestoreToken]) != manifest.tokenSha {
        return Err(Integrity);
      }
      return Ok(manifest);
    }

    /** The token a restore authenticates with is read back only if it is the one the manifest digests. */
    method ReadRestoreToken(artifact: Artifact) returns (r: Result<Content, StoreError>)
      ensures r.Ok? <==>
        && artifact.root in dirs && RestoreToken in dirs[artifact.root]
        && Size(dirs[artifact.root][RestoreToken]) >= MIN_TOKEN_BYTES
        && Sha256(dirs[artifact.root][RestoreToken]) == artifact.manifest.tokenSha
      ensures r.Ok? ==> artifact.manifest.tokenSha == Sha256(r.value)
    {
      if artifact.root !in dirs || RestoreToken !in dirs[artifact.root] {
        return Err(Integrity);
      }
      var token := dirs[artifact.root][RestoreToken];
      if Size(token) < MIN_TOKEN_BYTES || Sha256(token) != artifact.manifest.tokenSha {
        return Err(Integrity);
      }
      return Ok(token);
    }

    method Delete(artifact: Artifact, fails: set<Fault>) returns (r: Result<(), StoreError>)
      modifies this
      ensures r.Ok? <==> artifact.root in old(dirs) && fails !! {RemoveDir, SyncRoot}
      ensures dirs == (if RemoveDir in fails then old(dirs) else old(dirs) - {artifact.root})
    {
      if RemoveDir in fails || artifact.root !in dirs {
        return Err(Faulted(RemoveDir));
      }
      dirs := dirs - {artifact.root};
      if SyncRoot in fails {
        return Err(Faulted(SyncRoot));
      }
      return Ok(());
    }

    // -------------------------------------------------------------------------------- integrity

    lemma {:induction false} FilledFacts(m: Manifest, files: Files, n: nat)
      requires n <= |ARTIFACTS| && HasArtifacts(files) && m.artifacts == map[] && m.size == 0
      ensures var f := Filled(m, files, n);
        && f == m.(size := f.size, artifacts := f.artifacts)
        && f.size == TotalSize(files, n)
        && f.artifacts == map k | k in ARTIFACTS[..n] :: ArtifactDigest(Size(files[k]), Sha256(files[k]))
    {
      if n > 0 {
        FilledFacts(m, files, n - 1);
        assert ARTIFACTS[..n] == ARTIFACTS[..n - 1] + [ARTIFACTS[n - 1]];
      }
    }

    lemma PublishedFacts(request: StageRequest)
      ensures var files := StagedFiles(request);
        HasArtifacts(files)
        && var m := PublishedManifest(FreshManifest(request), files);
           && m.artifacts == map[VmState := ArtifactDigest(Size(request.vmstate), Sha256(request.vmstate)),
                                 Memory := ArtifactDigest(Size(request.memory), Sha256(request.memory)),
                                 Rootfs := ArtifactDigest(Size(request.rootfs), Sha256(request.rootfs))]
           && m.size == TotalSize(files, |ARTIFACTS|) && m.tokenSha == Sha256(request.token)
           && m.seal == CalculatedSeal(m)
           && m.schema == SCHEMA && m.architecture == architecture && m.firecracker == firecracker && m.kernel == kernel
    {
      var files := StagedFiles(request);
      FilledFacts(FreshManifest(request), files, |ARTIFACTS|);
      assert ARTIFACTS[..|ARTIFACTS|] == ARTIFACTS;
      var filled := Filled(FreshManifest(request), files, |ARTIFACTS|);
      assert filled.artifacts.Keys == {VmState, Memory, Rootfs};
    }

    lemma TotalSizeDepends(files: Files, others: Files, n: nat)
      requires n <= |ARTIFACTS| && HasArtifacts(files) && HasArtifacts(others)
      requires forall name | name in ARTIFACTS :: files[name] == others[name]
      ensures TotalSize(files, n) == TotalSize(others, n)
    {
      if n > 0 { TotalSizeDepends(files, others, n - 1); }
    }

    /** Round trip and converse in one: for an artifact produced by stage and finalize, the verdict on
        any directory is positive exactly when manifest, vmstate, memory, rootfs and restore token are
        the ones that were finalized. Other files do not matter. */
    lemma VerdictIsIdentity(request: StageRequest, files: Files)
      ensures var m := PublishedManifest(FreshManifest(request), StagedFiles(request));
        var finalized := StagedFiles(request)[ManifestFile := Json(m)];
        Intact(files, m) <==> (forall name | name in finalized :: name in files && files[name] == finalized[name])
    {
      PublishedFacts(request);
      var staged := StagedFiles(request);
      var m := PublishedManifest(FreshManifest(request), staged);
      var finalized := staged[ManifestFile := Json(m)];
      assert ARTIFACTS == [VmState, Memory, Rootfs];
      assert m.artifacts.Keys == {VmState, Memory, Rootfs};
      if forall name | name in finalized :: name in files && files[name] == finalized[name] {
        assert forall name | name in ARTIFACTS :: name in finalized;
        TotalSizeDepends(files, staged, |ARTIFACTS|);
      }
      if Intact(files, m) {
        assert ArtifactMatches(files, m, VmState) && ArtifactMatches(files, m, Memory) && ArtifactMatches(files, m, Rootfs);
      }
    }
  }
}
