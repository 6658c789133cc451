/**
The template catalog, a directory with one record file per alias, and the runtime's resolver on top of it.

A template's identity is `tpl-` and the first 60 hex digits of the digest of its descriptor. `hex`
stands for those digits; nothing here needs them to differ for different descriptors.
Records are read in any order. The catalog has one writer at a time.
*/
module Catalog {
  import opened Core

  const SCHEMA: nat := 1
  const CONTRACT: string := "ferrobox-template-v1"
  const READY: string := "ready"
  const ID_PREFIX: string := "tpl-"
  const ID_HEX_LENGTH: nat := 60
  const MAX_ALIAS: nat := 64

  type Location = string

  type Content = seq<bv8>

  type Files = map<Location, Content>

  datatype Artifact = Artifact(digest: Digest<Content>, size: nat)

  /** The validated and normalised part of a request that is not about files. */
  datatype Fields = Fields(name: string, version: string, source: string, architecture: string)

  datatype Descriptor = Descriptor(contract: string, fields: Fields, kernel: Artifact, rootfs: Artifact)

  /** The SHA-256 of a descriptor. */
  datatype SpecDigest = SpecDigest(of: Descriptor)

  datatype Locations = Locations(kernel: Location, rootfs: Location)

  datatype Record = Record(
    schema: nat, id: string, alias: string, status: string, specDigest: SpecDigest,
    descriptor: Descriptor, locations: Locations)

  /** What a record file holds: a record, or something that does not parse. */
  datatype Stored = Parsed(record: Record) | Garbage

  type Records = map<string, Stored>

  /** `fields` is absent if one of them is invalid. */
  datatype BuildRequest = BuildRequest(alias: string, fields: Option<Fields>, locations: Locations)

  datatype CatalogError = InvalidInput | AliasConflict | IdentityConflict | NotFound | Corrupt | Io

  datatype Inspection = Inspection(record: Record, valid: bool)

  predicate AliasChar(c: char) { '0' <= c <= '9' || 'a' <= c <= 'z' || 'A' <= c <= 'Z' || c == '-' || c == '_' }

  predicate ValidAlias(alias: string) { 1 <= |alias| <= MAX_ALIAS && forall c | c in alias :: AliasChar(c) }

  function Hashed(content: Content): Artifact { Artifact(Sha256(content), |content|) }

  function TemplateId(hex: SpecDigest -> string, digest: SpecDigest): string { ID_PREFIX + hex(digest) }

  predicate HexDigit(c: char) { '0' <= c <= '9' || 'a' <= c <= 'f' }

  /** What cutting a formatted digest gives. */
  ghost predicate IsHex(hex: SpecDigest -> string) {
    forall digest :: |hex(digest)| == ID_HEX_LENGTH && forall c | c in hex(digest) :: HexDigit(c)
  }

  /** Every identity is a valid reference of exactly the greatest length. */
  lemma IdentityIsReference(hex: SpecDigest -> string, digest: SpecDigest)
    requires IsHex(hex)
    ensures ValidAlias(TemplateId(hex, digest)) && |TemplateId(hex, digest)| == MAX_ALIAS && IsIdentity(TemplateId(hex, digest))
  {
    var id := TemplateId(hex, digest);
    forall c | c in id ensures AliasChar(c) {
      assert c in ID_PREFIX || c in hex(digest);
    }
  }

  predicate HasFiles(request: BuildRequest, files: Files) {
    request.locations.kernel in files && request.locations.rootfs in files
  }

  predicate WellFormed(request: BuildRequest, files: Files) {
    ValidAlias(request.alias) && request.fields.Some? && HasFiles(request, files)
  }

  function Describe(request: BuildRequest, files: Files): Descriptor
    requires WellFormed(request, files)
  {
    Descriptor(CONTRACT, request.fields.value,
               Hashed(files[request.locations.kernel]), Hashed(files[request.locations.rootfs]))
  }

  function NewRecord(hex: SpecDigest -> string, request: BuildRequest, files: Files): Record
    requires WellFormed(request, files)
  {
    var descriptor := Describe(request, files);
    Record(SCHEMA, TemplateId(hex, SpecDigest(descriptor)), request.alias, READY, SpecDigest(descriptor), descriptor, request.locations)
  }

  /** `validate_record` passes for the file `stem`. */
  predicate Loads(hex: SpecDigest -> string, stem: string, stored: Stored) {
    && stored.Parsed? && stored.record.schema == SCHEMA && stored.record.status == READY
    && stored.record.descriptor.contract == CONTRACT && ValidAlias(stored.record.alias)
    && stored.record.alias == stem && stored.record.specDigest == SpecDigest(stored.record.descriptor)
    && stored.record.id == TemplateId(hex, stored.record.specDigest)
  }

  predicate AllLoad(hex: SpecDigest -> string, records: Records) {
    forall stem | stem in records :: Loads(hex, stem, records[stem])
  }

  /** Aliases and identities correspond one to one, and every record passes validation. */
  predicate Consistent(hex: SpecDigest -> string, records: Records) {
    && AllLoad(hex, records)
    && forall a, b | a in records && b in records && a != b :: records[a].record.id != records[b].record.id
  }

  predicate HasId(records: Records, id: string) {
    exists stem :: stem in records && records[stem].Parsed? && records[stem].record.id == id
  }

  // ---------------------------------------------------------------------------------- specification

  /** The catalog after building `record`: unchanged if the very template is there under that alias,
      one record more if neither its alias nor its identity is taken, and an error otherwise. */
  function Built(records: Records, record: Record): Option<Records> {
    if record.alias in records then
      if records[record.alias].Parsed? && records[record.alias].record.id == record.id then Some(records) else None
    else if HasId(records, record.id) then None
    else Some(records[record.alias := Parsed(record)])
  }

  /** What a build request makes of the catalog; `None` if it is refused or its record cannot be written. */
  function BuiltFrom(hex: SpecDigest -> string, records: Records, request: BuildRequest, files: Files, persistWorks: bool):
    Option<Records>
  {
    if !WellFormed(request, files) || !AllLoad(hex, records) then None else
    var built := Built(records, NewRecord(hex, request, files));
    if built.Some? && (built.value == records || persistWorks) then built else None
  }

  /** `reference` means the record of that alias or else the one of that identity. */
  ghost predicate Means(records: Records, reference: string, record: Record) {
    if reference in records then records[reference] == Parsed(record)
    else record.id == reference && record.alias in records && records[record.alias] == Parsed(record)
  }

  /** The alias under which the record stands that `reference` means. */
  ghost function Referent(records: Records, reference: string): (alias: string)
    requires reference in records || HasId(records, reference)
    ensures alias in records
    ensures reference !in records ==> records[alias].Parsed? && records[alias].record.id == reference
  {
    if reference in records then reference else
    var stem :| stem in records && records[stem].Parsed? && records[stem].record.id == reference;
    stem
  }

  /** A lookup succeeds: by alias it needs that one record to load, by identity it needs them all to. */
  predicate Resolvable(hex: SpecDigest -> string, records: Records, reference: string) {
    ValidAlias(reference)
    && if reference in records then Loads(hex, reference, records[reference])
       else AllLoad(hex, records) && HasId(records, reference)
  }

  // ------------------------------------------------------------------------------------ the catalog

  class TemplateCatalog {
    const hex: SpecDigest -> string
    var records: Records

    constructor (hex: SpecDigest -> string)
      ensures this.hex == hex && records == map[] && Consistent(hex, records)
    {
      this.hex, records := hex, map[];
    }

    /** Loads all records; one that does not load spoils the call. */
    method AllRecords() returns (r: Result<seq<Record>, CatalogError>)
      ensures r.Ok? <==> AllLoad(hex, records)
      ensures r.Ok? ==> forall record: Record ::
        record in r.value <==> record.alias in records && records[record.alias] == Parsed(record)
    {
      var list := [];
      var todo := records.Keys;
      while todo != {}
        invariant todo <= records.Keys
        invariant forall stem | stem in records && stem !in todo :: Loads(hex, stem, records[stem])
        invariant forall record: Record ::
          record in list <==> record.alias in records && record.alias !in todo && records[record.alias] == Parsed(record)
        decreases todo
      {
        var stem :| stem in todo;
        todo := todo - {stem};
        if !Loads(hex, stem, records[stem]) {
          return Err(Corrupt);
        }
        list := list + [records[stem].record];
      }
      return Ok(list);
    }

    method Resolve(reference: string) returns (r: Result<Record, CatalogError>)
      ensures r.Ok? <==> Resolvable(hex, records, reference)
      ensures r.Ok? ==> Means(records, reference, r.value)
    {
      if !ValidAlias(reference) {
        return Err(InvalidInput);
      }
      if reference in records {
        if !Loads(hex, reference, records[reference]) {
          return Err(Corrupt);
        }
        return Ok(records[reference].record);
      }
      var all := AllRecords();
      if all.Err? {
        return Err(all.error);
      }
      for i := 0 to |all.value|
        invariant forall j | 0 <= j < i :: all.value[j].id != reference
      {
        if all.value[i].id == reference {
          assert all.value[i] in all.value;
          assert HasId(records, reference) by { assert all.value[i].alias in records; }
          return Ok(all.value[i]);
        }
      }
      NoSuchId(hex, records, all.value, reference);
      return Err(NotFound);
    }

    /** The record and whether the files at its locations still are what it describes. */
    method Inspect(reference: string, files: Files) returns (r: Result<Inspection, CatalogError>)
      ensures r.Ok? <==> Resolvable(hex, records, reference)
      ensures r.Ok? ==> Means(records, reference, r.value.record) && (r.value.valid <==> Verifies(r.value.record, files))
    {
      var resolved := Resolve(reference);
      if resolved.Err? {
        return Err(resolved.error);
      }
      var record := resolved.value;
      var kernelValid := record.locations.kernel in files
        && Hashed(files[record.locations.kernel]) == record.descriptor.kernel;
      var rootfsValid := record.locations.rootfs in files
        && Hashed(files[record.locations.rootfs]) == record.descriptor.rootfs;
      return Ok(Inspection(record, kernelValid && rootfsValid));
    }

    /** Writes a new file; never over an existing one. */
    method Persist(record: Record, works: bool) returns (r: Result<(), CatalogError>)
      modifies this
      ensures r.Ok? <==> works && record.alias !in old(records)
      ensures records == if r.Ok? then old(records)[record.alias := Parsed(record)] else old(records)
    {
      if !works {
        return Err(Io);
      }
      if record.alias in records {
        return Err(AliasConflict);
      }
      records := records[record.alias := Parsed(record)];
      return Ok(());
    }

    /** The first record in the way of `record`, by its alias or by its identity. */
    method FindClash(all: seq<Record>, record: Record) returns (clash: Option<Record>)
      ensures clash.None? ==> forall other | other in all :: other.alias != record.alias && other.id != record.id
      ensures clash.Some? ==> clash.value in all && (clash.value.alias == record.alias || clash.value.id == record.id)
    {
      for i := 0 to |all|
        invariant forall j | 0 <= j < i :: all[j].alias != record.alias && all[j].id != record.id
      {
        if all[i].alias == record.alias || all[i].id == record.id {
          return Some(all[i]);
        }
      }
      return None;
    }

    method Build(request: BuildRequest, files: Files, persistWorks: bool) returns (r: Result<Inspection, CatalogError>)
      modifies this
      ensures old(Consistent(hex, records)) ==> Consistent(hex, records)
      ensures r.Err? ==> records == old(records)
      ensures r.Ok? ==>
        && WellFormed(request, files)
        && var record := NewRecord(hex, request, files);
          && Some(records) == Built(old(records), record)
          && r.value.record.id == record.id && r.value.record.alias == request.alias
      ensures r.Ok? && request.alias !in old(records) ==> r.value.valid && r.value.record == NewRecord(hex, request, files)
      ensures old(Consistent(hex, records)) ==>
        var built := BuiltFrom(hex, old(records), request, files, persistWorks);
        (r.Ok? <==> built.Some?) && (r.Ok? ==> records == built.value)
    {
      if !ValidAlias(request.alias) || request.fields.None? {
        return Err(InvalidInput);
      }
      if !HasFiles(request, files) {
        return Err(Io);
      }
      var record := NewRecord(hex, request, files);
      var all := AllRecords();
      if all.Err? {
        return Err(all.error);
      }
      var clash := FindClash(all.value, record);
      if clash.Some? {
        if clash.value.alias != record.alias {
          return Err(IdentityConflict);
        }
        if clash.value.id != record.id {
          return Err(AliasConflict);
        }
        r := Inspect(request.alias, files);
        return;
      }
      NoSuchId(hex, records, all.value, record.id);
      var persisted := Persist(record, persistWorks);
      if persisted.Err? {
        return Err(persisted.error);
      }
      BuiltConsistent(hex, old(records), record);
      r := Inspect(request.alias, files);
    }

    method Delete(reference: string, removeWorks: bool) returns (r: Result<Record, CatalogError>)
      modifies this
      ensures old(Consistent(hex, records)) ==> Consistent(hex, records)
      ensures r.Err? ==> records == old(records)
      ensures r.Ok? <==> removeWorks && Resolvable(hex, old(records), reference)
      ensures r.Ok? ==> Means(old(records), reference, r.value) && records == old(records) - {r.value.alias}
      ensures r.Ok? && old(Consistent(hex, records)) ==> records == old(records) - {Referent(old(records), reference)}
    {
      var resolved := Resolve(reference);
      if resolved.Err? {
        return Err(resolved.error);
      }
      if !removeWorks {
        return Err(Io);
      }
      if Consistent(hex, records) {
        assert Loads(hex, Referent(records, reference), records[Referent(records, reference)]);
        MeaningUnique(hex, records, reference, resolved.value, records[Referent(records, reference)].record);
      }
      records := records - {resolved.value.alias};
      return Ok(resolved.value);
    }
  }

  /** The files at the record's locations are what the record describes. */
  predicate Verifies(record: Record, files: Files) {
    && record.locations.kernel in files && Hashed(files[record.locations.kernel]) == record.descriptor.kernel
    && record.locations.rootfs in files && Hashed(files[record.locations.rootfs]) == record.descriptor.rootfs
  }

  ghost predicate Lists(records: Records, all: seq<Record>) {
    forall record: Record :: record in all <==> record.alias in records && records[record.alias] == Parsed(record)
  }

  lemma NoSuchId(hex: SpecDigest -> string, records: Records, all: seq<Record>, id: string)
    requires AllLoad(hex, records) && Lists(records, all)
    requires forall other | other in all :: other.id != id
    ensures !HasId(records, id)
  {
    forall stem | stem in records ensures records[stem].record.id != id {
      assert Loads(hex, stem, records[stem]);
      assert records[stem].record in all;
    }
  }

  // ------------------------------------------------------------------------------------- theorems

  /** A build keeps aliases and identities one to one. */
  lemma BuiltConsistent(hex: SpecDigest -> string, records: Records, record: Record)
    requires Loads(hex, record.alias, Parsed(record))
    ensures Consistent(hex, records) && Built(records, record).Some? ==> Consistent(hex, Built(records, record).value)
  {
    if Consistent(hex, records) && record.alias !in records && !HasId(records, record.id) {
      forall stem | stem in records ensures records[stem].record.id != record.id {
        assert Loads(hex, stem, records[stem]);
      }
    }
  }

  /** Whatever is in the catalog can be looked up by its alias and by its identity. */
  lemma LookupsSucceed(hex: SpecDigest -> string, records: Records, alias: string)
    requires IsHex(hex) && Consistent(hex, records) && alias in records
    ensures Resolvable(hex, records, alias) && Resolvable(hex, records, records[alias].record.id)
  {
    assert Loads(hex, alias, records[alias]);
    IdentityIsReference(hex, records[alias].record.specDigest);
  }

  datatype Change = BuildIt(request: BuildRequest, files: Files, persistWorks: bool) | DeleteIt(reference: string)

  /** The catalog after a run of builds and deletions, each of which may fail. */
  ghost function AfterRun(hex: SpecDigest -> string, run: seq<Change>): Records {
    if run == [] then map[] else
    var before := AfterRun(hex, run[..|run| - 1]);
    match run[|run| - 1]
    case BuildIt(request, files, persistWorks) =>
      var built := BuiltFrom(hex, before, request, files, persistWorks);
      if built.Some? then built.value else before
    case DeleteIt(reference) => if Resolvable(hex, before, reference) then before - {Referent(before, reference)} else before
  }

  /** Every run of requests keeps aliases and identities one to one and all records valid. */
  lemma {:induction false} RunConsistent(hex: SpecDigest -> string, run: seq<Change>)
    ensures Consistent(hex, AfterRun(hex, run))
  {
    if run != [] {
      RunConsistent(hex, run[..|run| - 1]);
      var change := run[|run| - 1];
      if change.BuildIt? && WellFormed(change.request, change.files) {
        BuiltConsistent(hex, AfterRun(hex, run[..|run| - 1]), NewRecord(hex, change.request, change.files));
      }
    }
  }

  /** What a reference means is unique. */
  lemma MeaningUnique(hex: SpecDigest -> string, records: Records, reference: string, a: Record, b: Record)
    requires Consistent(hex, records) && Means(records, reference, a) && Means(records, reference, b)
    ensures a == b
  {}

  /** An alias and its template's identity mean the same record exactly when no other template carries
      that identity as its alias. */
  lemma AliasAndIdentityAgree(hex: SpecDigest -> string, records: Records, alias: string, record: Record)
    requires Consistent(hex, records) && alias in records
    requires Means(records, records[alias].record.id, record)
    ensures Means(records, alias, record) <==> records[alias].record.id !in records || records[alias].record.id == alias
  {
    var id := records[alias].record.id;
    assert Loads(hex, alias, records[alias]);
    if id in records {
      assert Loads(hex, id, records[id]);
    } else {
      assert record.alias in records && records[record.alias].record.id == id;
    }
  }

  /** The two requests describe the same template: equal fields and contents, wherever the files are. */
  predicate SameTemplate(a: BuildRequest, files: Files, b: BuildRequest, others: Files) {
    && WellFormed(a, files) && WellFormed(b, others) && a.fields == b.fields
    && files[a.locations.kernel] == others[b.locations.kernel] && files[a.locations.rootfs] == others[b.locations.rootfs]
  }

  /** Building the same template again under the same alias leaves the catalog as it is. */
  lemma RebuildUnchanged(
      hex: SpecDigest -> string, records: Records, a: BuildRequest, files: Files, b: BuildRequest, others: Files,
      persistWorks: bool, again: bool)
    requires SameTemplate(a, files, b, others) && a.alias == b.alias
    requires BuiltFrom(hex, records, a, files, persistWorks).Some?
    ensures var up := BuiltFrom(hex, records, a, files, persistWorks).value;
      BuiltFrom(hex, up, b, others, again) == Some(up)
  {}

  /** The identity depends on the described fields and the files' contents alone, wherever the files are. */
  lemma IdentityIgnoresLocations(
      hex: SpecDigest -> string, a: BuildRequest, files: Files, b: BuildRequest, others: Files)
    requires SameTemplate(a, files, b, others)
    ensures NewRecord(hex, a, files).id == NewRecord(hex, b, others).id
  {}

  /** And the full digest behind it tells different templates apart. */
  lemma DigestsDiffer(hex: SpecDigest -> string, a: BuildRequest, files: Files, b: BuildRequest, others: Files)
    requires WellFormed(a, files) && WellFormed(b, others)
    ensures NewRecord(hex, a, files).specDigest == NewRecord(hex, b, others).specDigest <==> SameTemplate(a, files, b, others)
  {}

  /** Built, deleted and built again, from files with the same contents wherever they are now, a template
      has its identity back, and everything else is as it was. */
  lemma DeleteAndRebuild(
      hex: SpecDigest -> string, records: Records, a: BuildRequest, files: Files, b: BuildRequest, others: Files)
    requires Consistent(hex, records) && SameTemplate(a, files, b, others) && a.alias == b.alias
    requires BuiltFrom(hex, records, a, files, true).Some?
    ensures var up := BuiltFrom(hex, records, a, files, true).value;
      var record := NewRecord(hex, b, others);
      && a.alias in up && up[a.alias].Parsed? && up[a.alias].record.id == record.id
      && BuiltFrom(hex, up - {a.alias}, b, others, true) == Some(up[a.alias := Parsed(record)])
  {
    var up := BuiltFrom(hex, records, a, files, true).value;
    BuiltConsistent(hex, records, NewRecord(hex, a, files));
    var rest := up - {a.alias};
    forall stem | stem in rest ensures rest[stem].record.id != up[a.alias].record.id {
      assert up[stem] == rest[stem];
    }
    assert rest[a.alias := Parsed(NewRecord(hex, b, others))] == up[a.alias := Parsed(NewRecord(hex, b, others))];
  }

  // ---------------------------------------------------------------------------- the runtime resolver

  datatype RuntimeError = Rejected | Unsupported | Unavailable | Unknown

  datatype Resolved = Resolved(id: string, locations: Locations)

  /** What a record must offer to be started by this runtime. */
  predicate Usable(record: Record, architecture: string, kernel: Digest<Content>, files: Files) {
    record.descriptor.fields.architecture == architecture && record.descriptor.kernel.digest == kernel
    && Verifies(record, files)
  }

  predicate IsIdentity(reference: string) { ID_PREFIX <= reference }

  class TemplateRuntimeResolver {
    const catalog: TemplateCatalog
    const kernel: Digest<Content>
    const architecture: string

    constructor (catalog: TemplateCatalog, kernel: Digest<Content>, architecture: string)
      ensures this.catalog == catalog && this.kernel == kernel && this.architecture == architecture
    {
      this.catalog, this.kernel, this.architecture := catalog, kernel, architecture;
    }

    /** A resolution hands out the verified files of the record that the reference means; for a
        reference that starts with `tpl-` it is the record of exactly that identity. */
    method Resolve(reference: string, files: Files) returns (r: Result<Resolved, RuntimeError>)
      ensures r.Ok? ==> exists record ::
        && Means(catalog.records, reference, record) && Usable(record, architecture, kernel, files)
        && r.value == Resolved(record.id, record.locations)
      ensures r.Ok? && IsIdentity(reference) ==> r.value.id == reference
      ensures r.Err? && Consistent(catalog.hex, catalog.records) && ValidAlias(reference) ==>
        forall record | Means(catalog.records, reference, record) ::
          !Usable(record, architecture, kernel, files) || (IsIdentity(reference) && record.id != reference)
    {
      var found := catalog.Resolve(reference);
      if found.Err? {
        return Err(if found.error.NotFound? then Unknown else if found.error.InvalidInput? then Rejected else Unavailable);
      }
      var record := found.value;
      if IsIdentity(reference) && record.id != reference {
        return Err(Rejected);
      }
      if record.descriptor.fields.architecture != architecture || record.descriptor.kernel.digest != kernel {
        return Err(Unsupported);
      }
      var kernelMatches := record.locations.kernel in files
        && Hashed(files[record.locations.kernel]) == record.descriptor.kernel;
      var rootfsMatches := record.locations.rootfs in files
        && Hashed(files[record.locations.rootfs]) == record.descriptor.rootfs;
      if !kernelMatches || !rootfsMatches {
        return Err(Unavailable);
      }
      return Ok(Resolved(record.id, record.locations));
    }
  }
}
